/** The tracker's decision logic (`on_state_changed`, `zone_event`) acting
    on the whole program state: the write path, the tracker, the single
    pending off-timer and the settings in force. */
module Controller {
  import opened Common
  import JsCoercion
  import NodeTimers
  import opened Settings
  import opened Trigger
  import opened Tracker

  /** The whole mutable state of the program. `offTimer` is the due time of
      the pending off-timer, if one is armed. */
  datatype Controller = Controller(engine: Engine, tracker: TrackerState, offTimer: Option<int>, settings: Settings)

  /** A state together with the effects that produced it. */
  datatype Transition = Transition(ctl: Controller, effects: seq<Effect>)

  /** Why a zone event can throw. */
  datatype CrashReason =
    | ZoneSettingNull     // the zone setting is null while zones are listed
    | NoZoneTracked       // nothing was ever matched, so the tracked zone is null

  datatype Outcome = Done(t: Transition) | Crash(reason: CrashReason)

  /** The pause/resume guard `trigger_state == false`: a JavaScript loose
      comparison of the state string with `false`. */
  predicate PauseGuard(s: TriggerState)
  {
    JsCoercion.LooselyEqualsFalse(Name(s))
  }

  /** The guard never holds: every state name starts with a capital. */
  lemma PauseGuardNeverHolds(s: TriggerState)
    ensures !PauseGuard(s)
  {
    JsCoercion.LetterFirstIsNotFalse(Name(s));
  }

  /** The pause/resume branch of a request for ON: when its guard holds it
      disarms the off-timer, pauses the zone and schedules play after the
      turn-on delay. Its guard never holds, so it does nothing. */
  function PauseResume(c: Controller): (r: Transition)
    ensures r == Transition(c, [])
  {
    PauseGuardNeverHolds(c.engine.state);
    if PauseGuard(c.engine.state) then
      Transition(c.(offTimer := None), [TransportPause, TransportPlayAfter(c.settings.turnOnPause)])
    else Transition(c, [])
  }

  predicate RequestsOn(state: string)
  {
    state == "playing" || state == "loading"
  }

  /** `on_state_changed`, deciding from the tracker's last state:
      "playing" or "loading" requests ON (the pause/resume branch never
      runs, so the off-timer is left alone), "stopped" replaces the
      off-timer with one due `turnOffPause` seconds from now, and any
      other state changes nothing. */
  function OnStateChanged(c: Controller, now: int, pgood: bool): (r: Transition)
    ensures r.ctl.tracker == c.tracker && r.ctl.settings == c.settings
    ensures RequestsOn(c.tracker.lastState) ==>
      var w := SetTrigger(c.engine, true, now, pgood);
      r == Transition(c.(engine := w.engine), w.effects)
    ensures c.tracker.lastState == "stopped" ==>
      r == Transition(c.(offTimer := Some(now + NodeTimers.SecondsDelay(c.settings.turnOffPause))), [])
    ensures !RequestsOn(c.tracker.lastState) && c.tracker.lastState != "stopped" ==> r == Transition(c, [])
  {
    var state := c.tracker.lastState;
    // The two tests of the source are on disjoint states, so at most one runs.
    if RequestsOn(state) then
      var paused := PauseResume(c);
      var w := SetTrigger(paused.ctl.engine, true, now, pgood);
      Transition(paused.ctl.(engine := w.engine), paused.effects + w.effects)
    else if state == "stopped" then
      Transition(c.(offTimer := Some(now + NodeTimers.SecondsDelay(c.settings.turnOffPause))), [])
    else Transition(c, [])
  }

  /** The handler's view of one "Changed" entry: it counts only when it
      names the tracked zone and brings a different state. */
  predicate Relevant(c: Controller, z: Zone)
  {
    z.zoneId == c.tracker.zoneId && z.state != c.tracker.lastState
  }

  /** The last entry of `deltas` naming zone `id` sits at `k`. */
  predicate IsLastFor(deltas: seq<Zone>, id: string, k: int)
  {
    && 0 <= k < |deltas|
    && deltas[k].zoneId == id
    && forall j :: k < j < |deltas| ==> deltas[j].zoneId != id
  }

  /** The "zones_changed" entries processed in order: each relevant entry
      records its state and runs a decision. Afterwards the tracker holds
      the state of the last entry naming its zone, and nothing but the
      last state, the write path and the off-timer has changed; a list
      whose every entry names another zone or repeats the last state
      changes nothing at all. */
  function ApplyZoneChanges(c: Controller, deltas: seq<Zone>, now: int, pgood: bool): (r: Transition)
    ensures r.ctl.tracker.zone == c.tracker.zone && r.ctl.tracker.zoneId == c.tracker.zoneId
    ensures r.ctl.settings == c.settings
    ensures (forall j :: 0 <= j < |deltas| ==> !Relevant(c, deltas[j])) ==> r == Transition(c, [])
    ensures forall k :: IsLastFor(deltas, c.tracker.zoneId, k) ==> r.ctl.tracker.lastState == deltas[k].state
    decreases |deltas|
  {
    if |deltas| == 0 then Transition(c, [])
    else
      var first := ApplyEntry(c, deltas[0], now, pgood);
      var rest := ApplyZoneChanges(first.ctl, deltas[1..], now, pgood);
      TailFacts(c, first.ctl, deltas);
      Transition(rest.ctl, first.effects + rest.effects)
  }

  /** One "Changed" entry: a relevant entry records its state and decides. */
  function ApplyEntry(c: Controller, z: Zone, now: int, pgood: bool): (r: Transition)
    ensures r.ctl.tracker.zone == c.tracker.zone && r.ctl.tracker.zoneId == c.tracker.zoneId
    ensures r.ctl.settings == c.settings
    ensures z.zoneId == c.tracker.zoneId ==> r.ctl.tracker.lastState == z.state
    ensures !Relevant(c, z) ==> r == Transition(c, [])
    ensures Relevant(c, z) ==> r == OnStateChanged(c.(tracker := c.tracker.(lastState := z.state)), now, pgood)
  {
    if Relevant(c, z) then OnStateChanged(c.(tracker := c.tracker.(lastState := z.state)), now, pgood)
    else Transition(c, [])
  }

  /** How the facts about a list carry over to its tail once the first
      entry has been applied. */
  lemma TailFacts(c: Controller, c': Controller, deltas: seq<Zone>)
    requires |deltas| > 0
    requires c'.tracker.zoneId == c.tracker.zoneId
    requires !Relevant(c, deltas[0]) ==> c' == c
    requires deltas[0].zoneId == c.tracker.zoneId ==> c'.tracker.lastState == deltas[0].state
    ensures (forall j :: 0 <= j < |deltas| ==> !Relevant(c, deltas[j])) ==>
      c' == c && forall j :: 0 <= j < |deltas[1..]| ==> !Relevant(c', deltas[1..][j])
    ensures forall k :: IsLastFor(deltas, c.tracker.zoneId, k) && k > 0 ==> IsLastFor(deltas[1..], c'.tracker.zoneId, k - 1)
    ensures forall k :: IsLastFor(deltas, c.tracker.zoneId, k) && k == 0 ==>
      c'.tracker.lastState == deltas[0].state && forall j :: 0 <= j < |deltas[1..]| ==> deltas[1..][j].zoneId != c'.tracker.zoneId
  {
  }

  /** The "Subscribed" handler. It throws when the zone setting is null
      while zones are listed, or when after the scan no zone has ever been
      tracked; otherwise it follows the last zone bearing the configured
      name (keeping the previous zone when none does) and runs a decision. */
  function OnSubscribed(c: Controller, zones: seq<Zone>, now: int, pgood: bool): (r: Outcome)
    ensures |zones| > 0 && c.settings.zone.None? ==> r == Crash(ZoneSettingNull)
    ensures |zones| == 0 ==>
      if c.tracker.zone.None? then r == Crash(NoZoneTracked) else r == Done(OnStateChanged(c, now, pgood))
    ensures c.settings.zone.Some? ==>
      var name := c.settings.zone.value;
      && (NoMatch(zones, name) && c.tracker.zone.None? ==> r == Crash(NoZoneTracked))
      && (NoMatch(zones, name) && c.tracker.zone.Some? ==> r == Done(OnStateChanged(c, now, pgood)))
      && (forall k :: IsLastMatch(zones, name, k) ==>
            r == Done(OnStateChanged(c.(tracker := Follow(zones[k])), now, pgood)))
  {
    if |zones| > 0 && c.settings.zone.None? then Crash(ZoneSettingNull)
    else
      var name := if c.settings.zone.Some? then c.settings.zone.value else "";
      var t := if |zones| == 0 then c.tracker else Scan(c.tracker, zones, name);
      SubscribedSelection(c.tracker, zones, name);
      if t.zone.None? then Crash(NoZoneTracked)
      else Done(OnStateChanged(c.(tracker := t), now, pgood))
  }

  /** What the scan of a non-empty or empty list selects. */
  lemma SubscribedSelection(t: TrackerState, zones: seq<Zone>, name: string)
    ensures var s := if |zones| == 0 then t else Scan(t, zones, name);
      && (NoMatch(zones, name) ==> s == t)
      && (forall k :: IsLastMatch(zones, name, k) ==> s == Follow(zones[k]))
  {
    if NoMatch(zones, name) && |zones| > 0 {
      ScanWithoutMatch(t, zones, name);
    }
    forall k | IsLastMatch(zones, name, k)
      ensures Scan(t, zones, name) == Follow(zones[k])
    {
      ScanFollowsLastMatch(t, zones, name, k);
    }
  }

  /** The payload of a "Changed" notification: the zone deltas when
      present. Seek updates and other payloads are all ignored alike. */
  datatype ChangedData = ChangedData(zonesChanged: Option<seq<Zone>>)

  /** A notification from the zone subscription. */
  datatype ZoneEvent =
    | Subscribed(zones: seq<Zone>)
    | Changed(data: ChangedData)
    | OtherCommand(cmd: string)

  /** `zone_event`: "Subscribed" scans and decides, "Changed" with zone
      deltas applies them, and seek-only payloads, other payloads and
      other commands change nothing. */
  function OnZoneEvent(c: Controller, ev: ZoneEvent, now: int, pgood: bool): (r: Outcome)
    ensures ev.Subscribed? ==> r == OnSubscribed(c, ev.zones, now, pgood)
    ensures ev.Changed? && ev.data.zonesChanged.Some? ==>
      r == Done(ApplyZoneChanges(c, ev.data.zonesChanged.value, now, pgood))
    ensures ev.Changed? && ev.data.zonesChanged.None? ==> r == Done(Transition(c, []))
    ensures ev.OtherCommand? ==> r == Done(Transition(c, []))
  {
    match ev
    case Subscribed(zones) => OnSubscribed(c, zones, now, pgood)
    case Changed(data) =>
      if data.zonesChanged.Some? then Done(ApplyZoneChanges(c, data.zonesChanged.value, now, pgood))
      else Done(Transition(c, []))
    case OtherCommand(_) => Done(Transition(c, []))
  }
}
