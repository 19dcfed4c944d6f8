/** The extension's settings: the defaults merged with the stored record,
    the layout that validates a candidate record, and the save protocol
    that commits only a valid, non-dry-run update. */
module Settings {
  import opened Common

  /** The settings record: the zone to follow (by display name; `None` is
      the source's `null`) and the two delays in seconds. */
  datatype Settings = Settings(zone: Option<string>, turnOnPause: DelayValue, turnOffPause: DelayValue)

  const TurnOnMin: int := 1
  const TurnOnMax: int := 20
  const TurnOffMin: int := 1
  const TurnOffMax: int := 3600

  /** The messages a field out of bounds shows. */
  const TurnOnMessage: string := "Turn On Delay must be between 1 and 20 seconds."
  const TurnOffMessage: string := "Turn Off Delay must be between 1 and 3600 seconds."

  /** The record used when nothing was stored. */
  const Defaults: Settings := Settings(None, Seconds(1), Seconds(10))

  /** A stored record: each key may be present (`Some`) or absent. */
  datatype Stored = Stored(zone: Option<Option<string>>, turnOnPause: Option<DelayValue>, turnOffPause: Option<DelayValue>)

  function Override<T>(default: T, loaded: Option<T>): T
  {
    match loaded
    case None => default
    case Some(v) => v
  }

  /** The startup settings: every key of the stored record, when there is
      one, replaces the default of the same name. */
  function Merge(loaded: Option<Stored>): (s: Settings)
    ensures loaded.None? ==> s == Defaults
    ensures loaded.Some? && loaded.value.zone.Some? ==> s.zone == loaded.value.zone.value
    ensures loaded.Some? && loaded.value.turnOnPause.Some? ==> s.turnOnPause == loaded.value.turnOnPause.value
    ensures loaded.Some? && loaded.value.turnOffPause.Some? ==> s.turnOffPause == loaded.value.turnOffPause.value
    ensures (loaded.None? || loaded.value.zone.None?) ==> s.zone == Defaults.zone
    ensures (loaded.None? || loaded.value.turnOnPause.None?) ==> s.turnOnPause == Defaults.turnOnPause
    ensures (loaded.None? || loaded.value.turnOffPause.None?) ==> s.turnOffPause == Defaults.turnOffPause
  {
    match loaded
    case None => Defaults
    case Some(st) =>
      Settings(Override(Defaults.zone, st.zone),
               Override(Defaults.turnOnPause, st.turnOnPause),
               Override(Defaults.turnOffPause, st.turnOffPause))
  }

  /** A delay value is acceptable when it is "none" or lies in [lo, hi]. */
  predicate Acceptable(v: DelayValue, lo: int, hi: int)
  {
    v.NoneLiteral? || lo <= v.n <= hi
  }

  /** The validity rule of the settings screen. */
  predicate Valid(s: Settings)
  {
    Acceptable(s.turnOnPause, TurnOnMin, TurnOnMax) && Acceptable(s.turnOffPause, TurnOffMin, TurnOffMax)
  }

  /** One entry of the settings screen. */
  datatype Field =
    | ZonePicker
    | IntegerField(setting: string, min: int, max: int, error: Option<string>)

  datatype Layout = Layout(values: Settings, fields: seq<Field>, hasError: bool)

  /** The integer field for `v`, if any, and whether it flags an error. */
  function DelayField(v: DelayValue, setting: string, min: int, max: int, message: string): (r: (seq<Field>, bool))
    ensures v.NoneLiteral? <==> r.0 == []
    ensures |r.0| <= 1
    ensures r.1 <==> !Acceptable(v, min, max)
    ensures r.0 != [] ==> r.0[0] == IntegerField(setting, min, max, if r.1 then Some(message) else None)
  {
    match v
    case NoneLiteral => ([], false)
    case Seconds(n) =>
      if n < min || n > max then ([IntegerField(setting, min, max, Some(message))], true)
      else ([IntegerField(setting, min, max, None)], false)
  }

  /** True when some field of the layout carries an error message. */
  predicate SomeFieldInError(fields: seq<Field>)
  {
    exists i :: 0 <= i < |fields| && fields[i].IntegerField? && fields[i].error.Some?
  }

  /** The settings screen for a candidate record. It always offers the zone
      picker, offers each delay unless it is "none", and reports an error
      exactly when the record breaks the validity rule, which is exactly
      when some offered field shows an error. */
  function MakeLayout(s: Settings): (l: Layout)
    ensures l.values == s
    ensures |l.fields| >= 1 && l.fields[0] == ZonePicker
    ensures l.hasError <==> !Valid(s)
    ensures l.hasError <==> SomeFieldInError(l.fields)
    ensures |l.fields| == 1 + (if s.turnOnPause.Seconds? then 1 else 0) + (if s.turnOffPause.Seconds? then 1 else 0)
    ensures s.turnOnPause.Seconds? ==>
      l.fields[1] == IntegerField("turnOnPause", TurnOnMin, TurnOnMax,
                                  if Acceptable(s.turnOnPause, TurnOnMin, TurnOnMax) then None else Some(TurnOnMessage))
    ensures s.turnOffPause.Seconds? ==>
      l.fields[|l.fields| - 1] == IntegerField("turnOffPause", TurnOffMin, TurnOffMax,
                                               if Acceptable(s.turnOffPause, TurnOffMin, TurnOffMax) then None else Some(TurnOffMessage))
  {
    var on := DelayField(s.turnOnPause, "turnOnPause", TurnOnMin, TurnOnMax, TurnOnMessage);
    var off := DelayField(s.turnOffPause, "turnOffPause", TurnOffMin, TurnOffMax, TurnOffMessage);
    var fields := [ZonePicker] + on.0 + off.0;
    assert on.0 != [] ==> fields[1] == on.0[0];
    assert off.0 != [] ==> fields[|fields| - 1] == off.0[0];
    Layout(s, fields, on.1 || off.1)
  }

  /** What a save request produces: the reply, the settings in force
      afterwards, and the effects. */
  datatype SaveResult = SaveResult(reply: SaveReply, settings: Settings, effects: seq<Effect>)

  /** Saving `values` over `current`: the reply is NotValid exactly when the
      record breaks the validity rule; the record replaces `current` only
      for a valid save that is not a dry run, and otherwise `current` stays
      exactly as it was. */
  function SaveSettings(current: Settings, dryRun: bool, values: Settings): (r: SaveResult)
    ensures r.reply == NotValid <==> !Valid(values)
    ensures !dryRun && Valid(values) ==> r.settings == values
    ensures dryRun || !Valid(values) ==> r.settings == current
    ensures |r.effects| >= 1 && r.effects[0] == SettingsReplied(r.reply)
    ensures SettingsCommitted in r.effects <==> !dryRun && Valid(values)
  {
    var l := MakeLayout(values);
    var reply := if l.hasError then NotValid else Success;
    if !dryRun && !l.hasError then SaveResult(reply, l.values, [SettingsReplied(reply), SettingsCommitted])
    else SaveResult(reply, current, [SettingsReplied(reply)])
  }

  /** The defaults pass validation. */
  lemma DefaultsValid()
    ensures !MakeLayout(Defaults).hasError
  {
  }

  /** The startup settings pass validation exactly when every delay the
      stored record supplies does (the defaults fill the rest). */
  lemma MergeValid(loaded: Option<Stored>)
    ensures Valid(Merge(loaded)) <==>
      (loaded.Some? ==>
         (loaded.value.turnOnPause.Some? ==> Acceptable(loaded.value.turnOnPause.value, TurnOnMin, TurnOnMax))
         && (loaded.value.turnOffPause.Some? ==> Acceptable(loaded.value.turnOffPause.value, TurnOffMin, TurnOffMax)))
  {
  }

  /** Saves never make valid settings invalid. */
  lemma SavePreservesValidity(current: Settings, dryRun: bool, values: Settings)
    requires Valid(current)
    ensures Valid(SaveSettings(current, dryRun, values).settings)
  {
  }

  /** A turn-on delay of 25 seconds is rejected and changes nothing. */
  lemma TurnOnDelayTooLongRejected(current: Settings, dryRun: bool, values: Settings)
    requires values.turnOnPause == Seconds(25)
    ensures SaveSettings(current, dryRun, values).reply == NotValid
    ensures SaveSettings(current, dryRun, values).settings == current
  {
  }
}
