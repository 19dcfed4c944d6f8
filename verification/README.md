# DAC power switch for a Roon zone — a Dafny model

The extension drives the power of an audio DAC from the playback state of
one Roon zone. It sets the DAC-enable line P_On and two trigger outputs.
The DAC's power-good line P_Good is its feedback. This project models the
program's decision engine as a pure state machine:

- **Write path** (module `Trigger`): a request for ON or OFF is dropped when
  it repeats the believed `trigger_state` within 10 000 ms of the last write.
  Otherwise all three outputs get the same level and the write is stamped.
  The believed state is then re-derived from P_Good, not from the request.
  The status credits "ROON" when P_On equals P_Good and "DAC" otherwise.
- **Playback decisions** (module `Controller`): "playing"/"loading" requests
  ON. "stopped" replaces the single off-timer with one due `turnOffPause`
  seconds later. Every other state does nothing.
- **Zone events** (modules `Tracker`, `Controller`): "Subscribed" follows the
  last zone whose display name matches the configured zone, then decides.
  It can throw, and that is modelled as a crash outcome. "Changed" applies
  only the entries for the tracked zone that bring a new state. Seek-only
  and other payloads do nothing.
- **Settings** (module `Settings`): the defaults are merged with the stored
  record. Inclusive bounds are [1,20] for `turnOnPause` and [1,3600] for
  `turnOffPause`, and a value of "none" skips its check. The reply is
  NotValid or Success. Only a valid, non-dry-run save is committed.
- **Program** (module `App`): startup plus one step per event. Each event
  carries the time in milliseconds and the P_Good level the hardware shows.
  The module also holds the state invariant and lemmas over whole runs.

Time, the P_Good reading, Roon notifications and timer expiry are all
parameters or events. Output writes, status updates, transport commands and
settings replies come back as a list of `Effect` values.

Behaviour as written, which the model keeps:

- The pause/resume branch is guarded by `trigger_state == false`.
  `trigger_state` only ever holds the strings "UNKNOWN", "ON" or "OFF", and
  none of these loosely equals `false`. So the branch never runs. The
  extension never pauses or resumes the zone, and a "playing" decision never
  disarms a pending off-timer. As a consequence, a zone that stops and
  starts again within the off delay still has its DAC switched off when the
  timer falls due (`App.StopThenPlayStillSwitchesOff`).
- There is only one delayed action, the off-timer. There is no turn-on
  timer.
- The external trigger input `Trig_In` is never watched, so it has no
  handler.
- The P_Good callback only re-reads the lines. Its branch for level 0 is
  empty: there is no forced OFF, no pause and no timer cancellation on power
  loss.
- An unmatched zone is not silently ignored. When no zone has ever been
  tracked, the "Subscribed" handler dereferences null and throws. It also
  throws when the zone setting is null and zones are listed.
- Timers follow Node.js: a delay outside [1, 2^31-1] ms, or NaN (from a
  "none" delay), becomes 1 ms (`NodeTimers`).

## Model

| member | source | states |
|---|---|---|
| Common.FromLevel | app.js:250 | A truthy P_Good level means "ON", a falsy one "OFF"; never "UNKNOWN" |
| Trigger.ReadDacGpio | app.js:247-255 | The believed state becomes what P_Good reports; status shows that state, crediting ROON iff P_On equals P_Good, else DAC; outputs and write time untouched |
| Trigger.WriteAndRead | app.js:237-245 | A write drives P_On, Trig_Out_1 and Trig_Out_2 to one level, stamps the write time, then re-reads the lines |
| Trigger.SetTrigger | app.js:213-224 | A request that repeats the believed state within 10 000 ms changes nothing and has no effect; any other request writes the same level to all three outputs, sets the write time to now, and leaves the state as P_Good reports it regardless of the request |
| Trigger.DebounceBoundary | app.js:215-221 | For a request repeating the believed state, a write happens iff at least 10 000 ms have passed (strict `<` suppresses) |
| Trigger.ChangeAlwaysWrites | app.js:213-224 | A request that differs from the believed state always writes its level |
| Trigger.RepeatWithinWindowWritesOnce | app.js:215-223 | Two identical requests within the window, with the DAC following the first, cause exactly one physical write |
| Trigger.RepeatAfterIgnoredWriteWritesAgain | app.js:247-252 | Debouncing compares with the observed P_Good state: if the DAC ignored a write, the same request is written again at once |
| Trigger.PowerGoodEdge | app.js:258-267 | A watch error changes nothing; an edge re-reads the lines and republishes the status without writing any output |
| Trigger.Boot | app.js:145-146 | At startup the status reads "All is good", then the first read resolves the state from P_Good with outputs low |
| JsCoercion.LetterFirstIsNotFalse | app.js:159 | A string starting with a capital letter never loosely equals `false` |
| Controller.PauseGuardNeverHolds | app.js:159 | The guard `trigger_state == false` is false for every value the state can take |
| Controller.PauseResume | app.js:159-162 | The pause/resume branch (disarm the off-timer, pause, schedule play) leaves the state as it was and emits nothing, since its guard never holds |
| Controller.OnStateChanged | app.js:156-169 | "playing"/"loading" requests ON and leaves the off-timer alone; "stopped" arms the one off-timer due the off delay later, with no write; other states change nothing; tracker and settings never change |
| Controller.ApplyZoneChanges | app.js:185-191 | The tracked zone and its id never change; afterwards the last state is that of the last entry naming the tracked zone; if no entry names it with a new state, nothing changes and nothing is emitted |
| App.ZoneChangesAppend | app.js:185-191 | The `forEach` runs in list order: applying `a + b` is applying `a`, then `b` to the state `a` left, with the effects of `a` first; with `ApplyEntry` this is one decision per relevant entry, in order |
| Controller.ApplyEntry | app.js:187-190 | One "Changed" entry: one that names the tracked zone with a new state records it and runs exactly one `on_state_changed` decision; one for another zone or repeating the last state changes nothing; zone, id and settings never change |
| Tracker.Follow | app.js:176-178 | Adopting a zone sets the tracked zone, its id and its last state from that zone |
| Tracker.Scan | app.js:173-180 | The forward `forEach` ends with the tracker it started from or following some zone bearing the configured name (which one is fixed by the two lemmas below) |
| Tracker.ScanWithoutMatch | app.js:173-180 | A zone list without the configured name leaves the tracker as it was |
| Tracker.ScanFollowsLastMatch | app.js:173-180 | The forward scan ends up following the last zone bearing the configured name, with its id and state |
| Controller.SubscribedSelection | app.js:173-180 | The zone selected by "Subscribed" is the last match, or the previous one when nothing matches |
| Controller.OnSubscribed | app.js:172-182 | "Subscribed" throws iff the zone setting is null while zones are listed, or no zone has ever been tracked; otherwise it follows the last match (or keeps the old zone) and decides once |
| Controller.OnZoneEvent | app.js:171-198 | "Subscribed" scans and decides, "Changed" with zone deltas applies them, seek-only and other payloads and other commands change nothing |
| NodeTimers.SecondsDelay | app.js:167 | The timer delay for a seconds setting lies in [1, 2^31-1] ms and is exactly seconds x 1000 for a valid off delay |
| Settings.Merge | app.js:58-62 | Each key of the stored record overrides its default; absent keys, or no record, keep the defaults (null zone, 1 s, 10 s) |
| Settings.MergeValid | app.js:58-62 | The startup settings pass validation iff every delay the stored record supplies is within its bounds or "none" |
| Settings.DelayField | app.js:77-91 | A delay field is offered unless the value is "none"; it carries its setting name and bounds, and shows its message iff the value is outside the inclusive bounds |
| Settings.MakeLayout | app.js:64-110 | The layout keeps the values and starts with the zone picker. A non-"none" turn-on delay is the second field, named `turnOnPause`, bounds [1,20], showing "Turn On Delay must be between 1 and 20 seconds." iff out of bounds. A non-"none" turn-off delay is the last field, named `turnOffPause`, bounds [1,3600], with its own message. There are no other fields. The layout has an error iff the record is invalid, iff some offered field shows an error |
| Settings.SaveSettings | app.js:116-125 | The reply is NotValid iff the record is invalid; the record is committed and persisted iff the save is valid and not a dry run; otherwise the settings stay exactly as before |
| Settings.DefaultsValid | app.js:58-62 | The default settings pass validation |
| Settings.SavePreservesValidity | app.js:116-125 | Valid settings stay valid across any save request |
| Settings.TurnOnDelayTooLongRejected | app.js:86-89 | A 25 s turn-on delay is answered NotValid and leaves the settings unchanged |
| App.Init | app.js:32-146 | Startup takes the merged settings (58-62), a fresh tracker, no off-timer (32) and the booted write path (34-35, 145-146), and satisfies the state invariant |
| App.FireOffTimer | app.js:167 | A due off-timer is spent and requests OFF through the debounced write path; before its due time, or when none is armed, nothing happens |
| App.Step | app.js:46-267 | Each event goes to its handler: pairing (app.js:46-50) installs a fresh tracker and keeps the write path, the pending off-timer and the settings; zone notifications go to `zone_event` (171-198); a due off-timer calls `set_trigger(false)` (167); the P_Good callback (258-267) changes only the write path; `save_settings` (116-125) changes only the settings. Only zone notifications can throw |
| App.Run | app.js:46-267 | An empty run changes nothing; a run without zone notifications never throws (order of handling is stated by `App.RunSingle` and `App.RunAppend`) |
| App.RunSingle | app.js:46-267 | A run of one event is exactly that event's step, crash included |
| App.RunAppend | app.js:46-267 | Events are handled one at a time, in order: running `xs + ys` runs `ys` from the state `xs` left, effects in order; a throw in `xs` ends the run there |
| App.SetTriggerKeepsInv | app.js:237-253 | A request keeps the state resolved, the trigger outputs mirroring P_On, and the status showing the state |
| App.OnStateChangedKeepsInv | app.js:156-169 | A playback decision keeps the state invariant |
| App.ZoneChangesKeepInv | app.js:184-191 | Applying zone deltas keeps the state invariant |
| App.StepKeepsInv | app.js:46-267 | Every non-throwing step (pairing, zone notification, off-timer, P_Good callback, save) keeps the state invariant |
| App.RunKeepsInv | app.js:46-267 | On every run from an invariant state, the believed state stays "ON" or "OFF", never "UNKNOWN", the outputs stay mirrored and the status shows the state |
| App.SetTriggerNeverUsesTransport | app.js:213-224 | A write request never issues a transport command |
| App.OnStateChangedNeverUsesTransport | app.js:156-169 | A playback decision never issues pause or play |
| App.ZoneChangesNeverUseTransport | app.js:184-191 | Applying zone deltas never issues pause or play |
| App.SubscribedNeverUsesTransport | app.js:172-182 | A "Subscribed" notification never issues pause or play |
| App.ZoneEventNeverUsesTransport | app.js:171-198 | No zone notification issues pause or play |
| App.SaveNeverUsesTransport | app.js:116-125 | A save request answers and possibly commits, never touching the transport |
| App.PowerGoodNeverUsesTransport | app.js:258-267 | The P_Good callback never issues pause or play |
| App.StepNeverUsesTransport | app.js:46-267 | No step of any kind issues pause or play |
| App.RunNeverUsesTransport | app.js:159-162 | On every run, no pause or play is ever issued: the pause/resume branch is dead |
| App.StoppedArmsOffTimer | app.js:165-168 | With valid settings, "stopped" leaves exactly one off-timer due at now + turnOffPause x 1000 ms, and writes nothing yet |
| App.PlayingKeepsOffTimer | app.js:158-164 | "playing"/"loading" never changes a pending off-timer and issues no transport command |
| App.OffTimerNotEarly | app.js:167 | The off-timer does nothing before its due time |
| App.SingleChange | app.js:186-190 | One relevant "Changed" entry amounts to one decision on its new state |
| App.StopEntryArmsTimer | app.js:165-168 | A "stopped" entry for the tracked zone records the state and arms the off-timer, touching nothing else |
| App.PlayEntryKeepsTimer | app.js:158-164 | A "playing" entry for the tracked zone, with the DAC following, leaves the state ON and the off-timer as it was |
| App.StopThenPlayStillSwitchesOff | app.js:156-169 | "stopped" then "playing" for the tracked zone leaves the off-timer armed; when it falls due it writes OFF though the zone is playing |

## Left out

- Roon discovery, pairing and the settings/status service objects (app.js:37-55, 112-145) are foreign library calls. Pairing appears only as a `CorePaired` event that installs a fresh tracker. The unpaired callback only logs.
- `get_settings` (app.js:113-115) answers with the layout of the current settings. It changes nothing, so it has no step of its own. Its layout is `Settings.MakeLayout`.
- Transport `control` calls are effect tokens. The "play" that the pause completion schedules (app.js:161) is a token carrying the turn-on delay setting. The model does not time it, because the branch never runs.
- GPIO construction and `readSync`/`writeSync` (app.js:25-30) are abstracted. The outputs are three levels that start low, as an `'out'` line does. Reading P_On yields the level last written. P_Good is a level supplied with each event; one event sees one P_Good level and one clock value.
- `Trig_In` (app.js:30) is declared but never watched, so it has no handler to model.
- Real timers are left out. The pending `offPause` timeout is an optional due time, and an `OffTimerDue` event fires it once the clock reaches it.
- Logging and `console-stamp` (app.js:4-10) are left out. So are the commented-out `ontime` schedule and `amp_trigger_msg` code (app.js:130-134, 203-210).
- The unused `trigger_callback` buffer comparison (app.js:226-233) is left out.
- The empty `value == 0` branch of the P_Good watch (app.js:264-266) does nothing, so nothing is added for it.
- JsCoercion.LooselyEqualsFalse: this is a necessary condition for JavaScript's `s == false` (once trimmed of the white space and line terminators ToNumber skips, the string is empty or starts with a sign, a point or a digit), not the full ToNumber algorithm. The three state names fail it, so on every state the guard is false, exactly as in JavaScript.
- Setting values are integers or the literal "none"; other JSON values (fractions, null, strings, missing keys in a save request) and extra keys of the stored record are not modelled. The zone setting is represented by its display name only.
- Trigger.SetTrigger: the clock is an unbounded integer; a `Date` that jumps backwards gives a negative elapsed time, which is suppressed just as the source's subtraction is.
- A thrown exception in the "Subscribed" handler ends the run (`Crash`); what the process does afterwards is not modelled.
