/** Vocabulary shared by every part of the DAC power-switch model: the
    believed power state, the status the extension publishes, the setting
    values an operator can enter, and the side effects a step emits. */
module Common {

  datatype Option<+T> = None | Some(value: T)

  /** The believed DAC power state, kept by the program as one of the
      strings "UNKNOWN", "ON" or "OFF". */
  datatype TriggerState = Unknown | On | Off

  /** The string the program stores for each state. */
  function Name(s: TriggerState): string
  {
    match s
    case Unknown => "UNKNOWN"
    case On => "ON"
    case Off => "OFF"
  }

  /** The state a digital level denotes: a truthy reading means "ON". */
  function FromLevel(level: bool): (s: TriggerState)
    ensures s != Unknown
    ensures s == On <==> level
  {
    if level then On else Off
  }

  /** Who the status line credits for the current power state: the
      extension ("ROON") when the DAC follows its enable line, the DAC
      itself ("DAC") when power-good disagrees with the enable line. */
  datatype Actor = Roon | Dac

  /** The status published to the Roon settings screen. */
  datatype Status = AllIsGood | DacPower(state: TriggerState, actor: Actor)

  /** A delay setting as stored in the settings record: a number of seconds,
      or the literal "none" that hides the field. */
  datatype DelayValue = Seconds(n: int) | NoneLiteral

  /** The reply to a settings save request. */
  datatype SaveReply = Success | NotValid

  /** Side effects on the world outside the decision engine. */
  datatype Effect =
    | WriteOutputs(level: bool)          // P_On, Trig_Out_1 and Trig_Out_2 all driven to `level`
    | SetStatus(status: Status)          // status line replaced
    | TransportPause                     // transport "pause" on the tracked zone
    | TransportPlayAfter(delay: DelayValue)  // "play" scheduled from the pause completion
    | SettingsReplied(reply: SaveReply)  // answer to a save request
    | SettingsCommitted                  // settings pushed to the UI and persisted

  /** True when some effect of `effects` writes the output lines. */
  predicate Writes(effects: seq<Effect>)
  {
    exists i :: 0 <= i < |effects| && effects[i].WriteOutputs?
  }

  /** True when some effect of `effects` issues a transport command. */
  predicate UsesTransport(effects: seq<Effect>)
  {
    exists i :: 0 <= i < |effects| && (effects[i].TransportPause? || effects[i].TransportPlayAfter?)
  }
}
