/** The program as one state machine: startup, then one step per event
    from any of its sources (pairing, zone subscription, the off-timer,
    the P_Good watch, settings saves). Each step receives the current time
    in milliseconds and the P_Good level the hardware shows. */
module App {
  import opened Common
  import NodeTimers
  import opened Settings
  import opened Trigger
  import opened Tracker
  import opened Controller

  /** The events the program reacts to. */
  datatype Event =
    | CorePaired                            // a Roon core paired: a new tracker
    | ZoneNotification(zev: ZoneEvent)      // from the zone subscription
    | OffTimerDue                           // the clock passed the off-timer's due time
    | PowerGoodWatch(error: bool)           // the P_Good watch callback
    | SaveRequest(dryRun: bool, values: Settings)

  /** One event together with the time and the P_Good level it sees. */
  datatype Stimulus = Stimulus(ev: Event, now: int, pgood: bool)

  /** Program start with the stored settings record, if any. */
  function Init(startMs: int, loaded: Option<Stored>, pgood: bool): (r: Transition)
    ensures r.ctl.settings == Merge(loaded)
    ensures r.ctl.tracker == Fresh && r.ctl.offTimer == None
    ensures r.ctl.engine == Boot(startMs, pgood).engine
    ensures Inv(r.ctl)
  {
    var boot := Boot(startMs, pgood);
    Transition(Controller(boot.engine, Fresh, None, Merge(loaded)), boot.effects)
  }

  /** The off-timer handler: when an armed timer is due it is spent and
      requests OFF; otherwise nothing happens. */
  function FireOffTimer(c: Controller, now: int, pgood: bool): (r: Transition)
    ensures c.offTimer.Some? && now >= c.offTimer.value ==>
      var w := SetTrigger(c.engine, false, now, pgood);
      r == Transition(c.(engine := w.engine, offTimer := None), w.effects)
    ensures !(c.offTimer.Some? && now >= c.offTimer.value) ==> r == Transition(c, [])
  {
    if c.offTimer.Some? && now >= c.offTimer.value then
      var w := SetTrigger(c.engine, false, now, pgood);
      Transition(c.(engine := w.engine, offTimer := None), w.effects)
    else Transition(c, [])
  }

  /** One step of the program. */
  function Step(c: Controller, s: Stimulus): (r: Outcome)
    ensures !s.ev.ZoneNotification? ==> r.Done?
    ensures s.ev.CorePaired? ==> r == Done(Transition(c.(tracker := Fresh), []))
    ensures s.ev.ZoneNotification? ==> r == OnZoneEvent(c, s.ev.zev, s.now, s.pgood)
    ensures s.ev.OffTimerDue? ==> r == Done(FireOffTimer(c, s.now, s.pgood))
    ensures s.ev.PowerGoodWatch? ==>
      var p := PowerGoodEdge(c.engine, s.ev.error, s.pgood);
      r == Done(Transition(c.(engine := p.engine), p.effects))
    ensures s.ev.SaveRequest? ==>
      var sv := SaveSettings(c.settings, s.ev.dryRun, s.ev.values);
      r == Done(Transition(c.(settings := sv.settings), sv.effects))
  {
    match s.ev
    case CorePaired => Done(Transition(c.(tracker := Fresh), []))
    case ZoneNotification(zev) => OnZoneEvent(c, zev, s.now, s.pgood)
    case OffTimerDue => Done(FireOffTimer(c, s.now, s.pgood))
    case PowerGoodWatch(error) =>
      var p := PowerGoodEdge(c.engine, error, s.pgood);
      Done(Transition(c.(engine := p.engine), p.effects))
    case SaveRequest(dryRun, values) =>
      var sv := SaveSettings(c.settings, dryRun, values);
      Done(Transition(c.(settings := sv.settings), sv.effects))
  }

  /** A sequence of stimuli from state `c`, handled one at a time in
      order; a crash ends the run. Only zone notifications can crash. */
  function Run(c: Controller, xs: seq<Stimulus>): (r: Outcome)
    ensures |xs| == 0 ==> r == Done(Transition(c, []))
    ensures (forall i :: 0 <= i < |xs| ==> !xs[i].ev.ZoneNotification?) ==> r.Done?
    decreases |xs|
  {
    if |xs| == 0 then Done(Transition(c, []))
    else
      match Step(c, xs[0])
      case Crash(reason) => Crash(reason)
      case Done(t) =>
        match Run(t.ctl, xs[1..])
        case Crash(reason) => Crash(reason)
        case Done(rest) => Done(Transition(rest.ctl, t.effects + rest.effects))
  }

  /** A run of one event is that event's step. */
  lemma RunSingle(c: Controller, s: Stimulus)
    ensures Step(c, s).Crash? ==> Run(c, [s]) == Step(c, s)
    ensures Step(c, s).Done? ==> Run(c, [s]) == Step(c, s)
  {
    assert [s][1..] == [];
    if Step(c, s).Done? {
      assert Step(c, s).t.effects + [] == Step(c, s).t.effects;
    }
  }

  /** Events are handled strictly in order: running `xs + ys` is running
      `xs`, then `ys` from the state `xs` left, with the effects in order;
      a crash in `xs` ends the run there. */
  lemma {:induction false} RunAppend(c: Controller, xs: seq<Stimulus>, ys: seq<Stimulus>)
    ensures Run(c, xs).Crash? ==> Run(c, xs + ys) == Run(c, xs)
    ensures Run(c, xs).Done? ==>
      var rx := Run(c, xs).t;
      match Run(rx.ctl, ys)
      case Crash(reason) => Run(c, xs + ys) == Crash(reason)
      case Done(ry) => Run(c, xs + ys) == Done(Transition(ry.ctl, rx.effects + ry.effects))
    decreases |xs|
  {
    if |xs| == 0 {
      assert xs + ys == ys;
      if Run(c, ys).Done? {
        assert [] + Run(c, ys).t.effects == Run(c, ys).t.effects;
      }
    } else {
      assert (xs + ys)[0] == xs[0] && (xs + ys)[1..] == xs[1..] + ys;
      if Step(c, xs[0]).Done? {
        var t := Step(c, xs[0]).t;
        RunAppend(t.ctl, xs[1..], ys);
        if Run(t.ctl, xs[1..]).Done? {
          var rx' := Run(t.ctl, xs[1..]).t;
          if Run(rx'.ctl, ys).Done? {
            EffectsAssoc(t.effects, rx'.effects, Run(rx'.ctl, ys).t.effects);
          }
        }
      }
    }
  }

  // The state invariant.

  /** Once started, the believed state is resolved to ON or OFF, the
      trigger outputs mirror P_On, and the status shows the believed state. */
  predicate Inv(c: Controller)
  {
    && c.engine.state != Unknown
    && Mirrored(c.engine.outputs)
    && c.engine.status.DacPower?
    && c.engine.status.state == c.engine.state
  }

  lemma SetTriggerKeepsInv(e: Engine, on: bool, now: int, pgood: bool)
    requires e.state != Unknown && Mirrored(e.outputs) && e.status.DacPower? && e.status.state == e.state
    ensures var w := SetTrigger(e, on, now, pgood).engine;
      w.state != Unknown && Mirrored(w.outputs) && w.status.DacPower? && w.status.state == w.state
  {
  }

  lemma OnStateChangedKeepsInv(c: Controller, now: int, pgood: bool)
    requires Inv(c)
    ensures Inv(OnStateChanged(c, now, pgood).ctl)
  {
    if RequestsOn(c.tracker.lastState) {
      SetTriggerKeepsInv(c.engine, true, now, pgood);
    }
  }

  lemma {:induction false} ZoneChangesKeepInv(c: Controller, deltas: seq<Zone>, now: int, pgood: bool)
    requires Inv(c)
    ensures Inv(ApplyZoneChanges(c, deltas, now, pgood).ctl)
    decreases |deltas|
  {
    if |deltas| > 0 {
      var z := deltas[0];
      var first := ApplyEntry(c, z, now, pgood);
      if Relevant(c, z) {
        OnStateChangedKeepsInv(c.(tracker := c.tracker.(lastState := z.state)), now, pgood);
      }
      ZoneChangesKeepInv(first.ctl, deltas[1..], now, pgood);
    }
  }

  lemma StepKeepsInv(c: Controller, s: Stimulus)
    requires Inv(c)
    ensures Step(c, s).Done? ==> Inv(Step(c, s).t.ctl)
  {
    if s.ev.ZoneNotification? && s.ev.zev.Subscribed? {
      var zones := s.ev.zev.zones;
      if Step(c, s).Done? {
        var name := if c.settings.zone.Some? then c.settings.zone.value else "";
        var t := if |zones| == 0 then c.tracker else Scan(c.tracker, zones, name);
        OnStateChangedKeepsInv(c.(tracker := t), s.now, s.pgood);
      }
    } else if s.ev.ZoneNotification? && s.ev.zev.Changed? && s.ev.zev.data.zonesChanged.Some? {
      ZoneChangesKeepInv(c, s.ev.zev.data.zonesChanged.value, s.now, s.pgood);
    } else if s.ev.OffTimerDue? {
      SetTriggerKeepsInv(c.engine, false, s.now, s.pgood);
    }
  }

  /** Every state a run reaches from an invariant state keeps the invariant;
      in particular the believed state is never "UNKNOWN" after startup. */
  lemma {:induction false} RunKeepsInv(c: Controller, xs: seq<Stimulus>)
    requires Inv(c)
    ensures Run(c, xs).Done? ==> Inv(Run(c, xs).t.ctl)
    decreases |xs|
  {
    if |xs| > 0 {
      StepKeepsInv(c, xs[0]);
      if Step(c, xs[0]).Done? {
        RunKeepsInv(Step(c, xs[0]).t.ctl, xs[1..]);
      }
    }
  }

  // No transport command is ever issued.

  lemma NoTransportInConcat(a: seq<Effect>, b: seq<Effect>)
    requires !UsesTransport(a) && !UsesTransport(b)
    ensures !UsesTransport(a + b)
  {
    forall i | 0 <= i < |a + b|
      ensures !((a + b)[i].TransportPause? || (a + b)[i].TransportPlayAfter?)
    {
      if i < |a| {
        assert (a + b)[i] == a[i];
      } else {
        assert (a + b)[i] == b[i - |a|];
      }
    }
  }

  lemma SetTriggerNeverUsesTransport(e: Engine, on: bool, now: int, pgood: bool)
    ensures !UsesTransport(SetTrigger(e, on, now, pgood).effects)
  {
    var w := SetTrigger(e, on, now, pgood);
    assert w.effects == [] || w.effects == [WriteOutputs(on), SetStatus(w.engine.status)];
  }

  lemma OnStateChangedNeverUsesTransport(c: Controller, now: int, pgood: bool)
    ensures !UsesTransport(OnStateChanged(c, now, pgood).effects)
  {
    SetTriggerNeverUsesTransport(c.engine, true, now, pgood);
  }

  lemma {:induction false} ZoneChangesNeverUseTransport(c: Controller, deltas: seq<Zone>, now: int, pgood: bool)
    ensures !UsesTransport(ApplyZoneChanges(c, deltas, now, pgood).effects)
    decreases |deltas|
  {
    if |deltas| > 0 {
      var z := deltas[0];
      var first := ApplyEntry(c, z, now, pgood);
      if Relevant(c, z) {
        OnStateChangedNeverUsesTransport(c.(tracker := c.tracker.(lastState := z.state)), now, pgood);
      }
      ZoneChangesNeverUseTransport(first.ctl, deltas[1..], now, pgood);
      NoTransportInConcat(first.effects, ApplyZoneChanges(first.ctl, deltas[1..], now, pgood).effects);
    }
  }

  lemma SubscribedNeverUsesTransport(c: Controller, zones: seq<Zone>, now: int, pgood: bool)
    ensures OnSubscribed(c, zones, now, pgood).Done? ==> !UsesTransport(OnSubscribed(c, zones, now, pgood).t.effects)
  {
    var name := if c.settings.zone.Some? then c.settings.zone.value else "";
    var t := if |zones| == 0 then c.tracker else Scan(c.tracker, zones, name);
    OnStateChangedNeverUsesTransport(c.(tracker := t), now, pgood);
  }

  lemma ZoneEventNeverUsesTransport(c: Controller, zev: ZoneEvent, now: int, pgood: bool)
    ensures OnZoneEvent(c, zev, now, pgood).Done? ==> !UsesTransport(OnZoneEvent(c, zev, now, pgood).t.effects)
  {
    if zev.Subscribed? {
      SubscribedNeverUsesTransport(c, zev.zones, now, pgood);
    } else if zev.Changed? && zev.data.zonesChanged.Some? {
      ZoneChangesNeverUseTransport(c, zev.data.zonesChanged.value, now, pgood);
    }
  }

  lemma SaveNeverUsesTransport(current: Settings, dryRun: bool, values: Settings)
    ensures !UsesTransport(SaveSettings(current, dryRun, values).effects)
  {
    var sv := SaveSettings(current, dryRun, values);
    assert sv.effects == [SettingsReplied(sv.reply)] || sv.effects == [SettingsReplied(sv.reply), SettingsCommitted];
  }

  lemma PowerGoodNeverUsesTransport(e: Engine, error: bool, pgood: bool)
    ensures !UsesTransport(PowerGoodEdge(e, error, pgood).effects)
  {
    var p := PowerGoodEdge(e, error, pgood);
    assert p.effects == [] || p.effects == [SetStatus(p.engine.status)];
  }

  lemma StepNeverUsesTransport(c: Controller, s: Stimulus)
    ensures Step(c, s).Done? ==> !UsesTransport(Step(c, s).t.effects)
  {
    match s.ev
    case ZoneNotification(zev) => ZoneEventNeverUsesTransport(c, zev, s.now, s.pgood);
    case OffTimerDue => SetTriggerNeverUsesTransport(c.engine, false, s.now, s.pgood);
    case PowerGoodWatch(error) => PowerGoodNeverUsesTransport(c.engine, error, s.pgood);
    case SaveRequest(dryRun, values) => SaveNeverUsesTransport(c.settings, dryRun, values);
    case CorePaired =>
  }

  /** However events arrive, the extension never pauses or resumes the
      zone: the pause/resume branch is dead code. */
  lemma {:induction false} RunNeverUsesTransport(c: Controller, xs: seq<Stimulus>)
    ensures Run(c, xs).Done? ==> !UsesTransport(Run(c, xs).t.effects)
    decreases |xs|
  {
    if |xs| > 0 {
      StepNeverUsesTransport(c, xs[0]);
      if Step(c, xs[0]).Done? {
        var t := Step(c, xs[0]).t;
        RunNeverUsesTransport(t.ctl, xs[1..]);
        if Run(t.ctl, xs[1..]).Done? {
          NoTransportInConcat(t.effects, Run(t.ctl, xs[1..]).t.effects);
        }
      }
    }
  }

  // Timing of the off-timer.

  /** A "stopped" decision under valid settings arms exactly one off-timer,
      due `turnOffPause` seconds later, and writes nothing yet. */
  lemma StoppedArmsOffTimer(c: Controller, now: int, pgood: bool)
    requires c.tracker.lastState == "stopped"
    requires Valid(c.settings) && c.settings.turnOffPause.Seconds?
    ensures OnStateChanged(c, now, pgood).ctl.offTimer == Some(now + c.settings.turnOffPause.n * 1000)
    ensures OnStateChanged(c, now, pgood).ctl.engine == c.engine
    ensures !Writes(OnStateChanged(c, now, pgood).effects)
  {
  }

  /** A "playing" or "loading" decision leaves a pending off-timer armed. */
  lemma PlayingKeepsOffTimer(c: Controller, now: int, pgood: bool)
    requires RequestsOn(c.tracker.lastState)
    ensures OnStateChanged(c, now, pgood).ctl.offTimer == c.offTimer
    ensures !UsesTransport(OnStateChanged(c, now, pgood).effects)
  {
    OnStateChangedNeverUsesTransport(c, now, pgood);
  }

  /** Before its due time the off-timer does nothing. */
  lemma OffTimerNotEarly(c: Controller, now: int, pgood: bool)
    requires c.offTimer.Some? && now < c.offTimer.value
    ensures Step(c, Stimulus(OffTimerDue, now, pgood)) == Done(Transition(c, []))
  {
  }

  /** A single relevant "Changed" entry is one decision on its new state. */
  lemma SingleChange(c: Controller, z: Zone, now: int, pgood: bool)
    requires Relevant(c, z)
    ensures ApplyZoneChanges(c, [z], now, pgood) == OnStateChanged(c.(tracker := c.tracker.(lastState := z.state)), now, pgood)
  {
    var first := OnStateChanged(c.(tracker := c.tracker.(lastState := z.state)), now, pgood);
    assert [z][1..] == [];
    assert ApplyZoneChanges(first.ctl, [], now, pgood) == Transition(first.ctl, []);
    assert first.effects + [] == first.effects;
  }

  /** Effects lists concatenate associatively. */
  lemma EffectsAssoc(a: seq<Effect>, b: seq<Effect>, c: seq<Effect>)
    ensures a + (b + c) == (a + b) + c
  {
  }

  /** One step of the deltas fold: the first entry, then the rest. */
  lemma ZoneChangesUnfold(c: Controller, d: seq<Zone>, now: int, pgood: bool)
    requires |d| > 0
    ensures var first := ApplyEntry(c, d[0], now, pgood);
      var rest := ApplyZoneChanges(first.ctl, d[1..], now, pgood);
      ApplyZoneChanges(c, d, now, pgood) == Transition(rest.ctl, first.effects + rest.effects)
  {
  }

  /** The fold's first step on a list that starts with `a`. */
  lemma ZoneChangesUnfoldAppend(c: Controller, a: seq<Zone>, b: seq<Zone>, now: int, pgood: bool)
    requires |a| > 0
    ensures var first := ApplyEntry(c, a[0], now, pgood);
      var rest := ApplyZoneChanges(first.ctl, a[1..] + b, now, pgood);
      ApplyZoneChanges(c, a + b, now, pgood) == Transition(rest.ctl, first.effects + rest.effects)
  {
    assert (a + b)[0] == a[0] && (a + b)[1..] == a[1..] + b;
    ZoneChangesUnfold(c, a + b, now, pgood);
  }

  /** How the first step and the rest combine into the whole. */
  lemma ComposeSteps(whole: Transition, ra: Transition, ra': Transition, rest: Transition, rb: Transition, fe: seq<Effect>)
    requires ra == Transition(ra'.ctl, fe + ra'.effects)
    requires rest == Transition(rb.ctl, ra'.effects + rb.effects)
    requires whole == Transition(rest.ctl, fe + rest.effects)
    ensures whole == Transition(rb.ctl, ra.effects + rb.effects)
  {
    EffectsAssoc(fe, ra'.effects, rb.effects);
  }

  /** The deltas are applied strictly in order: applying `a + b` is
      applying `a` and then `b` to the state `a` left, with the effects of
      `a` before those of `b`. Together with `ApplyEntry` this runs one
      decision per relevant entry, in list order. */
  lemma {:induction false} ZoneChangesAppend(c: Controller, a: seq<Zone>, b: seq<Zone>, now: int, pgood: bool)
    ensures var ra := ApplyZoneChanges(c, a, now, pgood);
      var rb := ApplyZoneChanges(ra.ctl, b, now, pgood);
      ApplyZoneChanges(c, a + b, now, pgood) == Transition(rb.ctl, ra.effects + rb.effects)
    decreases |a|
  {
    var ra := ApplyZoneChanges(c, a, now, pgood);
    if |a| == 0 {
      assert a + b == b;
      assert ra.effects == [];
    } else {
      var first := ApplyEntry(c, a[0], now, pgood);
      var ra' := ApplyZoneChanges(first.ctl, a[1..], now, pgood);
      var rb := ApplyZoneChanges(ra'.ctl, b, now, pgood);
      ZoneChangesUnfold(c, a, now, pgood);
      ZoneChangesUnfoldAppend(c, a, b, now, pgood);
      ZoneChangesAppend(first.ctl, a[1..], b, now, pgood);
      ComposeSteps(ApplyZoneChanges(c, a + b, now, pgood), ra, ra',
                   ApplyZoneChanges(first.ctl, a[1..] + b, now, pgood), rb, first.effects);
    }
  }

  /** A "stopped" entry for the tracked zone arms the off-timer. */
  lemma StopEntryArmsTimer(c: Controller, stop: Zone, now: int, pgood: bool)
    requires c.tracker.lastState != "stopped"
    requires stop.zoneId == c.tracker.zoneId && stop.state == "stopped"
    ensures var r := ApplyZoneChanges(c, [stop], now, pgood).ctl;
      r == c.(tracker := c.tracker.(lastState := "stopped"),
              offTimer := Some(now + NodeTimers.SecondsDelay(c.settings.turnOffPause)))
  {
    SingleChange(c, stop, now, pgood);
  }

  /** A "playing" entry for the tracked zone, with the DAC following,
      leaves the believed state ON and the off-timer as it was. */
  lemma PlayEntryKeepsTimer(c: Controller, play: Zone, now: int)
    requires c.tracker.lastState != "playing"
    requires play.zoneId == c.tracker.zoneId && play.state == "playing"
    ensures var r := ApplyZoneChanges(c, [play], now, true).ctl;
      r.tracker.lastState == "playing" && r.engine.state == On && r.offTimer == c.offTimer
  {
    SingleChange(c, play, now, true);
  }

  /** A zone that stops and starts playing again before the off delay has
      run out still has its DAC switched off when the timer falls due,
      because the "playing" decision does not disarm the timer. */
  lemma StopThenPlayStillSwitchesOff(c: Controller, stop: Zone, play: Zone, t0: int, t1: int, t2: int, p0: bool, p2: bool)
    requires c.tracker.lastState != "stopped"
    requires stop.zoneId == c.tracker.zoneId && stop.state == "stopped"
    requires play.zoneId == c.tracker.zoneId && play.state == "playing"
    requires t2 >= t0 + NodeTimers.SecondsDelay(c.settings.turnOffPause)
    ensures
      var afterStop := ApplyZoneChanges(c, [stop], t0, p0).ctl;
      var afterPlay := ApplyZoneChanges(afterStop, [play], t1, true).ctl;
      && afterPlay.tracker.lastState == "playing"
      && afterPlay.engine.state == On
      && afterPlay.offTimer == Some(t0 + NodeTimers.SecondsDelay(c.settings.turnOffPause))
      && FireOffTimer(afterPlay, t2, p2).effects[0] == WriteOutputs(false)
  {
    StopEntryArmsTimer(c, stop, t0, p0);
    var afterStop := ApplyZoneChanges(c, [stop], t0, p0).ctl;
    PlayEntryKeepsTimer(afterStop, play, t1);
    var afterPlay := ApplyZoneChanges(afterStop, [play], t1, true).ctl;
    ChangeAlwaysWrites(afterPlay.engine, false, t2, p2);
  }
}
