/** The write-debouncing core: `set_trigger`, `dac_trigger_gpio`,
    `read_dac_gpio` and the P_Good edge handler. Time is a millisecond
    count supplied with each request; the P_Good reading is supplied by
    the environment. */
module Trigger {
  import opened Common

  /** Requests that repeat the believed state are dropped for this long
      after the last write. */
  const DebounceMs: int := 10000

  /** The three output lines the extension drives. */
  datatype Outputs = Outputs(pOn: bool, trigOut1: bool, trigOut2: bool)

  /** Both trigger outputs mirror the DAC enable line. */
  predicate Mirrored(o: Outputs)
  {
    o.trigOut1 == o.pOn && o.trigOut2 == o.pOn
  }

  /** The global state of the write path: the believed power state, the
      time of the last write, the output levels and the published status. */
  datatype Engine = Engine(state: TriggerState, lastWrite: int, outputs: Outputs, status: Status)

  /** An engine state together with the effects that produced it. */
  datatype Reaction = Reaction(engine: Engine, effects: seq<Effect>)

  /** Re-derives the believed state from a P_Good reading and publishes it,
      crediting the extension when P_On agrees with P_Good and the DAC
      otherwise. The request that led here plays no part. */
  function ReadDacGpio(e: Engine, pgood: bool): (r: Engine)
    ensures r.state == FromLevel(pgood)
    ensures r.status.DacPower? && r.status.state == r.state
    ensures r.status.actor == Roon <==> e.outputs.pOn == pgood
    ensures r.outputs == e.outputs && r.lastWrite == e.lastWrite
  {
    var state := FromLevel(pgood);
    var actor := if e.outputs.pOn == pgood then Roon else Dac;
    e.(state := state, status := DacPower(state, actor))
  }

  /** A request for `on` is dropped when it names the believed state and
      the last write is less than DebounceMs old. */
  predicate Suppressed(e: Engine, on: bool, now: int)
  {
    FromLevel(on) == e.state && now - e.lastWrite < DebounceMs
  }

  /** Drives every output line to `level`, stamps the write, then reads the
      lines back (`dac_trigger_gpio`). */
  function WriteAndRead(e: Engine, level: bool, now: int, pgood: bool): (r: Reaction)
    ensures r.engine.outputs == Outputs(level, level, level)
    ensures r.engine.lastWrite == now
    ensures r.engine.state == FromLevel(pgood)
    ensures r.engine.status == DacPower(FromLevel(pgood), if level == pgood then Roon else Dac)
    ensures r.effects == [WriteOutputs(level), SetStatus(r.engine.status)]
  {
    var written := e.(lastWrite := now, outputs := Outputs(level, level, level));
    var read := ReadDacGpio(written, pgood);
    Reaction(read, [WriteOutputs(level), SetStatus(read.status)])
  }

  /** `set_trigger`: a request for ON (`on`) or OFF. A suppressed request
      changes nothing and has no effect; any other request writes the same
      level to all three outputs, records `now` as the write time, and
      leaves the believed state as P_Good reports it, whatever was asked. */
  function SetTrigger(e: Engine, on: bool, now: int, pgood: bool): (r: Reaction)
    ensures Suppressed(e, on, now) ==> r.engine == e && r.effects == []
    ensures !Suppressed(e, on, now) ==>
      && r.engine.outputs == Outputs(on, on, on)
      && r.engine.lastWrite == now
      && r.engine.state == FromLevel(pgood)
      && r.engine.status == DacPower(r.engine.state, if on == pgood then Roon else Dac)
      && r.effects == [WriteOutputs(on), SetStatus(r.engine.status)]
  {
    if Suppressed(e, on, now) then Reaction(e, [])
    else WriteAndRead(e, on, now, pgood)
  }

  /** The P_Good watch callback: an error report changes nothing; an edge
      re-reads the lines and republishes the status. The edge's own value
      leads nowhere (its branch in the source is empty). */
  function PowerGoodEdge(e: Engine, error: bool, pgood: bool): (r: Reaction)
    ensures error ==> r == Reaction(e, [])
    ensures !error ==> r.engine == ReadDacGpio(e, pgood) && r.effects == [SetStatus(r.engine.status)]
    ensures r.engine.outputs == e.outputs && r.engine.lastWrite == e.lastWrite
  {
    if error then Reaction(e, [])
    else
      var read := ReadDacGpio(e, pgood);
      Reaction(read, [SetStatus(read.status)])
  }

  /** Program start: the believed state is "UNKNOWN", the write clock
      starts at `startMs`, the outputs are low, the status reads "All is
      good", and the lines are then read once. */
  function Boot(startMs: int, pgood: bool): (r: Reaction)
    ensures r.engine.state == FromLevel(pgood) && r.engine.lastWrite == startMs
    ensures r.engine.outputs == Outputs(false, false, false)
    ensures r.engine.status == DacPower(r.engine.state, if pgood then Dac else Roon)
    ensures r.effects == [SetStatus(AllIsGood), SetStatus(r.engine.status)]
  {
    var initial := Engine(Unknown, startMs, Outputs(false, false, false), AllIsGood);
    var read := ReadDacGpio(initial, pgood);
    Reaction(read, [SetStatus(AllIsGood), SetStatus(read.status)])
  }

  // Properties relating several requests.

  /** The suppression window is exactly DebounceMs wide: a request that
      repeats the believed state writes iff at least DebounceMs passed. */
  lemma DebounceBoundary(e: Engine, on: bool, now: int, pgood: bool)
    requires FromLevel(on) == e.state
    ensures Writes(SetTrigger(e, on, now, pgood).effects) <==> now - e.lastWrite >= DebounceMs
  {
    var r := SetTrigger(e, on, now, pgood);
    if now - e.lastWrite >= DebounceMs {
      assert r.effects[0].WriteOutputs?;
    }
  }

  /** A request that differs from the believed state always writes. */
  lemma ChangeAlwaysWrites(e: Engine, on: bool, now: int, pgood: bool)
    requires FromLevel(on) != e.state
    ensures SetTrigger(e, on, now, pgood).effects[0] == WriteOutputs(on)
  {
  }

  /** Repeating a request that wrote, within the window and with the DAC
      having followed it, writes nothing more: one physical write in all. */
  lemma RepeatWithinWindowWritesOnce(e: Engine, on: bool, t1: int, t2: int, pgood: bool)
    requires !Suppressed(e, on, t1)
    requires pgood == on
    requires t2 - t1 < DebounceMs
    ensures var r1 := SetTrigger(e, on, t1, pgood);
            var r2 := SetTrigger(r1.engine, on, t2, pgood);
            r2 == Reaction(r1.engine, []) && WriteCount(r1.effects + r2.effects) == 1
  {
    var r1 := SetTrigger(e, on, t1, pgood);
    var r2 := SetTrigger(r1.engine, on, t2, pgood);
    assert r1.effects + r2.effects == [WriteOutputs(on), SetStatus(r1.engine.status)];
  }

  /** Debouncing compares with what P_Good reported, not with what was
      asked: when the DAC did not follow a write, the same request written
      again at once is not dropped. */
  lemma RepeatAfterIgnoredWriteWritesAgain(e: Engine, on: bool, t1: int, t2: int, pgood: bool)
    requires pgood != on
    requires !Suppressed(e, on, t1)
    ensures var r1 := SetTrigger(e, on, t1, pgood);
            SetTrigger(r1.engine, on, t2, pgood).effects[0] == WriteOutputs(on)
  {
  }

  /** The number of output writes among `effects`. */
  function WriteCount(effects: seq<Effect>): (n: nat)
    ensures n <= |effects|
    ensures n > 0 <==> Writes(effects)
  {
    if |effects| == 0 then 0
    else
      var rest := WriteCount(effects[1..]);
      assert Writes(effects[1..]) ==> Writes(effects) by {
        if Writes(effects[1..]) {
          var i :| 0 <= i < |effects[1..]| && effects[1..][i].WriteOutputs?;
          assert effects[i + 1].WriteOutputs?;
        }
      }
      assert Writes(effects) && !effects[0].WriteOutputs? ==> Writes(effects[1..]) by {
        if Writes(effects) && !effects[0].WriteOutputs? {
          var i :| 0 <= i < |effects| && effects[i].WriteOutputs?;
          assert effects[1..][i - 1].WriteOutputs?;
        }
      }
      (if effects[0].WriteOutputs? then 1 else 0) + rest
  }
}
