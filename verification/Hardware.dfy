/**
 The same parts as objects: the remote I/O, the audited outputs around it and the controller that polls them, each method
 proved against the functions of RemoteOutputs and Control.
 */
module Hardware {
  import opened Domain
  import opened EngineSpec
  import opened RemoteOutputs
  import opened RemoteOutputsProofs
  import opened Control
  import C = Control

  /** What the objects act on: the coils, the history of writes and appends, and the calls the workflow received. */
  class Plant {
    const hw: Hw
    var on: set<nat>
    var story: seq<Beat>
    var calls: seq<Event>
    var since: Option<nat>

    function State(): RemoteOutputs.Rig
      reads this
    {
      Rig(on, story, calls, since)
    }

    constructor (hw: Hw, on: set<nat>)
      ensures this.hw == hw && State() == Rig(on, [], [], None)
    {
      this.hw, this.on, story, calls, since := hw, on, [], [], None;
    }

    method WriteSingleCoil(put: Put) returns (ok: bool)
      modifies this
      ensures Did(State(), ok) == WriteCoil(hw, old(State()), put)
    {
      var fate := hw.wire(|story|);
      if fate != LostIgnored {
        on := if put.value then on + {Addr(hw.m, put.coil)} else on - {Addr(hw.m, put.coil)};
      }
      ok := fate == Acked;
      story := story + [Wrote(put, ok, on)];
    }

    method Append(b: Beat) returns (ok: bool)
      modifies this
      ensures Did(State(), ok) == Note(hw, old(State()), b)
    {
      ok := hw.disk(|story|);
      if ok {
        story := story + [b];
      } else {
        story := story + [Unrecorded];
        Hear(AUDIT_FAULT);
      }
    }

    method Hear(e: Event)
      modifies this`calls
      ensures State() == Tell(old(State()), e)
    {
      calls := calls + [e];
    }
  }

  // ---------- the remote I/O ----------

  datatype InputMap = InputMap(
    entryPresent: Word, frontPresent: Word, rearPresent: Word, exitPresent: Word,
    entryOpen: Word, entryClosed: Word, exitOpen: Word, exitClosed: Word, safetyClear: Option<Word>)

  lemma {:induction false} WriteAllAppend(hw: Hw, r: RemoteOutputs.Rig, a: seq<Put>, b: seq<Put>)
    ensures WriteAll(hw, r, a + b) == var d := WriteAll(hw, r, a); if d.ok then WriteAll(hw, d.rig, b) else d
    decreases |a|
  {
    if a == [] {
      assert a + b == b;
    } else {
      assert (a + b)[0] == a[0] && (a + b)[1..] == a[1..] + b;
      var d := WriteCoil(hw, r, a[0]);
      if d.ok { WriteAllAppend(hw, d.rig, a[1..], b); }
    }
  }

  lemma WriteOne(hw: Hw, r: RemoteOutputs.Rig, put: Put)
    ensures WriteAll(hw, r, [put]) == WriteCoil(hw, r, put)
  {
    assert [put][1..] == [];
  }

  class ModbusIO {
    const plant: Plant

    constructor (plant: Plant)
      ensures this.plant == plant
    {
      this.plant := plant;
    }

    method SetSignal(side: Side, green: bool) returns (ok: bool)
      modifies plant
      ensures Did(plant.State(), ok) == WriteAll(plant.hw, old(plant.State()), Signal(side, green))
    {
      var s := Signal(side, green);
      WriteAllAppend(plant.hw, plant.State(), [s[0]], [s[1]]);
      assert s == [s[0]] + [s[1]];
      WriteOne(plant.hw, plant.State(), s[0]);
      if green {
        ok := plant.WriteSingleCoil(Put(Red(side), false));
        if !ok { return; }
        WriteOne(plant.hw, plant.State(), s[1]);
        ok := plant.WriteSingleCoil(Put(Green(side), true));
      } else {
        ok := plant.WriteSingleCoil(Put(Green(side), false));
        if !ok { return; }
        WriteOne(plant.hw, plant.State(), s[1]);
        ok := plant.WriteSingleCoil(Put(Red(side), true));
      }
    }

    method SetBuzzer(on: bool) returns (ok: bool)
      modifies plant
      ensures Did(plant.State(), ok) == WriteAll(plant.hw, old(plant.State()), [Put(Horn, on)])
    {
      WriteOne(plant.hw, plant.State(), Put(Horn, on));
      ok := plant.WriteSingleCoil(Put(Horn, on));
    }

    method RequestBarrier(side: Side, open: bool) returns (ok: bool)
      modifies plant
      ensures Did(plant.State(), ok) == WriteAll(plant.hw, old(plant.State()), [Put(OpenRequest(side), open)])
    {
      WriteOne(plant.hw, plant.State(), Put(OpenRequest(side), open));
      ok := plant.WriteSingleCoil(Put(OpenRequest(side), open));
    }

    method SafeState() returns (ok: bool)
      modifies plant
      ensures Did(plant.State(), ok) == WriteAll(plant.hw, old(plant.State()), SAFE_PUTS)
    {
      hide WriteAll;
      var a, b, c, d, e := [Put(Horn, false)], Signal(EntrySide, false), Signal(ExitSide, false),
                           [Put(OpenRequest(EntrySide), false)], [Put(OpenRequest(ExitSide), false)];
      assert SAFE_PUTS == a + (b + (c + (d + e)));
      WriteAllAppend(plant.hw, plant.State(), a, b + (c + (d + e)));
      ok := SetBuzzer(false);
      if !ok { return; }
      WriteAllAppend(plant.hw, plant.State(), b, c + (d + e));
      ok := SetSignal(EntrySide, false);
      if !ok { return; }
      WriteAllAppend(plant.hw, plant.State(), c, d + e);
      ok := SetSignal(ExitSide, false);
      if !ok { return; }
      WriteAllAppend(plant.hw, plant.State(), d, e);
      ok := RequestBarrier(EntrySide, false);
      if !ok { return; }
      ok := RequestBarrier(ExitSide, false);
    }

    /** Reaching b from a takes no more inputs than one request may ask for. */
    static predicate OneBlock(a: int, b: int) {
      b - a < 2000
    }

    /** One block read from the lowest to the highest mapped address. It succeeds exactly when the device answers and no two
        addresses are 2000 or more apart, and then every input is the one at its own address. */
    static method ReadBlock(addresses: seq<Word>, answers: bool, input: int -> bool) returns (low: int, bits: Option<seq<bool>>)
      requires addresses != []
      ensures bits.Some? <==> answers && forall i, j :: 0 <= i < |addresses| && 0 <= j < |addresses| ==> OneBlock(addresses[j], addresses[i])
      ensures bits.Some? ==> forall i :: 0 <= i < |addresses| ==>
                0 <= addresses[i] - low < |bits.value| && bits.value[addresses[i] - low] == input(addresses[i])
    {
      low := addresses[0];
      var high := addresses[0];
      ghost var l, h := 0, 0;
      for i := 1 to |addresses|
        invariant 0 <= l < |addresses| && 0 <= h < |addresses| && low == addresses[l] && high == addresses[h]
        invariant forall k :: 0 <= k < i ==> low <= addresses[k] <= high
      {
        if addresses[i] < low { low, l := addresses[i], i; }
        if addresses[i] > high { high, h := addresses[i], i; }
      }
      var quantity := (high - low + 1) % 0x1_0000;
      if !answers || quantity == 0 || quantity > 2000 {
        assert answers ==> !OneBlock(addresses[l], addresses[h]);
        return low, None;
      }
      bits := Some(seq(quantity, i requires 0 <= i => input(low + i)));
    }

    static method ReadInputs(m: InputMap, answers: bool, input: int -> bool, now: Time) returns (p: Option<Position>)
      ensures p.Some? <==> answers && var a := Addresses(m); forall i, j :: 0 <= i < |a| && 0 <= j < |a| ==> OneBlock(a[j], a[i])
      ensures p.Some? ==>
                p.value == Position(input(m.entryPresent), input(m.frontPresent), input(m.rearPresent), input(m.exitPresent),
                                    input(m.entryOpen), input(m.entryClosed), input(m.exitOpen), input(m.exitClosed),
                                    m.safetyClear.Some? && input(m.safetyClear.value), now)
    {
      var a := Addresses(m);
      var low, bits := ReadBlock(a, answers, input);
      if bits.None? { return None; }
      var b := bits.value;
      p := Some(Position(b[a[0] - low], b[a[1] - low], b[a[2] - low], b[a[3] - low], b[a[4] - low], b[a[5] - low],
                         b[a[6] - low], b[a[7] - low], m.safetyClear.Some? && b[a[8] - low], now));
    }

    static function Addresses(m: InputMap): (a: seq<Word>) {
      [m.entryPresent, m.frontPresent, m.rearPresent, m.exitPresent,
       m.entryOpen, m.entryClosed, m.exitOpen, m.exitClosed]
      + if m.safetyClear.Some? then [m.safetyClear.value] else []
    }
  }

  // ---------- the audit gate ----------

  class AuditedOutputs {
    const inner: ModbusIO
    const plant: Plant

    constructor (inner: ModbusIO)
      ensures this.inner == inner && plant == inner.plant
    {
      this.inner, plant := inner, inner.plant;
    }

    method Carry(cmd: Command) returns (ok: bool)
      requires plant == inner.plant
      modifies plant
      ensures Did(plant.State(), ok) == WriteAll(plant.hw, old(plant.State()), PutsOf(cmd))
    {
      match cmd
      case Light(side, on) => ok := inner.SetSignal(side, on);
      case Buzz(on) => ok := inner.SetBuzzer(on);
      case Barrier(side, on) => ok := inner.RequestBarrier(side, on);
    }

    method Perform(cmd: Command) returns (ok: bool)
      requires plant == inner.plant
      modifies plant
      ensures Did(plant.State(), ok) == RemoteOutputs.Perform(plant.hw, old(plant.State()), cmd)
    {
      hide WriteAll, Note;
      if cmd.on {
        var noted := plant.Append(Intent(cmd));
        if !noted { return false; }
      }
      ok := Carry(cmd);
      var noted := plant.Append(Result(cmd, ok));
      if !noted && cmd.on && ok { ok := false; }
    }

    method SafeState() returns (ok: bool)
      requires plant == inner.plant
      modifies plant
      ensures Did(plant.State(), ok) == RemoteOutputs.SafeState(plant.hw, old(plant.State()))
    {
      hide WriteAll, Note;
      ok := inner.SafeState();
      if !ok { return; }
      var written := |plant.story|;
      var _ := plant.Append(SafeNoted);
      if plant.since.None? { plant.since := Some(written); }
    }
  }

  // ---------- the controller ----------

  class Controller {
    const outputs: AuditedOutputs
    const plant: Plant
    const timing: Timing
    var applied: Outputs
    var lastReady: bool
    var buzzerUntil: Option<Time>
    var entrySince: Option<Time>
    var exitSince: Option<Time>
    var safe: bool

    function State(): Ctl
      reads this
    {
      Ctl(applied, lastReady, buzzerUntil, entrySince, exitSince, safe)
    }

    predicate Wired()
      reads {}
    {
      plant == outputs.plant == outputs.inner.plant
    }

    constructor (outputs: AuditedOutputs, timing: Timing)
      requires outputs.plant == outputs.inner.plant
      ensures Wired() && plant == outputs.plant && this.outputs == outputs
      ensures this.timing == WithDefaults(timing) && State() == NEW_CTL
    {
      this.outputs, plant, this.timing := outputs, outputs.plant, WithDefaults(timing);
      applied, lastReady, buzzerUntil, entrySince, exitSince, safe := ALL_OFF, false, None, None, None, false;
    }

    function Working(ok: bool): Work
      reads this, plant
    {
      Work(State(), plant.State(), ok)
    }

    method IoFault()
      modifies this`safe, plant`calls
      ensures Working(false) == C.IoFault(old(Working(false)))
    {
      safe := false;
      plant.Hear(OUTPUT_FAILED);
    }

    /** One command; when it succeeds the controller's picture follows. */
    method Do(cmd: Command) returns (ok: bool)
      requires Wired()
      modifies this, plant
      ensures Working(ok) == C.Do(plant.hw, old(Working(true)), cmd)
    {
      hide RemoteOutputs.Perform;
      ok := outputs.Perform(cmd);
      if !ok {
        IoFault();
        return;
      }
      match cmd
      case Light(EntrySide, on) => applied := applied.(entryGreen := on);
      case Light(ExitSide, on) => applied := applied.(exitGreen := on);
      case Barrier(EntrySide, on) => applied := applied.(entryOpen := on);
      case Barrier(ExitSide, on) => applied := applied.(exitOpen := on);
      case Buzz(on) => applied := applied.(buzzer := on);
    }

    method Request(s: Side, want: bool, now: Time) returns (ok: bool)
      requires Wired()
      modifies this, plant
      ensures Working(ok) == C.Request(plant.hw, old(Working(true)), s, want, now)
    {
      hide C.Do;
      if want == OpenOf(applied, s) { return true; }
      if !want && GreenOf(applied, s) {
        ok := Do(Light(s, false));
        if !ok {
          DoSkips(plant.hw, Working(false), Barrier(s, want));
          return;
        }
      }
      ok := Do(Barrier(s, want));
      if !ok { return; }
      if s == EntrySide {
        entrySince := if want then Some(now) else None;
      } else {
        exitSince := if want then Some(now) else None;
      }
    }

    static lemma DoSkips(hw: Hw, w: Work, cmd: Command)
      requires !w.ok
      ensures C.Do(hw, w, cmd) == w
    {
    }

    method Lamp(s: Side, green: bool) returns (ok: bool)
      requires Wired()
      modifies this, plant
      ensures Working(ok) == C.Lamp(plant.hw, old(Working(true)), s, green)
    {
      if green == GreenOf(applied, s) { return true; }
      ok := Do(Light(s, green));
    }

    method Sound(ready: bool, now: Time) returns (ok: bool)
      requires Wired()
      modifies this, plant
      ensures Working(ok) == C.Sound(plant.hw, old(Working(true)), timing, ready, now)
    {
      hide C.Do;
      if ready && !lastReady { buzzerUntil := Some(now + timing.pulse); }
      if !ready { buzzerUntil := None; }
      lastReady := ready;
      var on := buzzerUntil.Some? && now < buzzerUntil.value;
      if on == applied.buzzer { return true; }
      ok := Do(Buzz(on));
    }

    method Confirm(s: Side, desired: Outputs, p: Position, now: Time)
      modifies this, plant
      ensures Working(true) == C.Confirm(old(Working(true)), timing, s, desired, p, now)
    {
      if !OpenOf(desired, s) { return; }
      if Feedback(p, s) {
        if s == EntrySide { entrySince := None; } else { exitSince := None; }
        plant.Hear(ClearFault(BarrierOf(s)));
      } else if SinceOf(State(), s).Some? && now - SinceOf(State(), s).value > timing.timeout {
        plant.Hear(TimeoutFault(s));
      }
    }

    static lemma FailedStaysFailed(hw: Hw, t: Timing, w: Work, desired: Outputs, p: Position, now: Time)
      requires !w.ok
      ensures C.Request(hw, w, ExitSide, desired.exitOpen, now) == w && Lamps(hw, w, desired, p) == w
      ensures C.Lamp(hw, w, ExitSide, GreenWanted(desired, p, ExitSide)) == w
      ensures C.Sound(hw, w, t, BuzzerReady(desired, p), now) == w && Confirmed(w, t, desired, p, now) == w
    {
    }

    method Reconcile(desired: Outputs, p: Position, now: Time) returns (ok: bool)
      requires Wired()
      modifies this, plant
      ensures Working(ok) == C.Reconcile(plant.hw, timing, old(Working(true)), desired, p, now)
    {
      hide C.Request, C.Lamp, C.Sound, C.Confirm;
      ok := Request(EntrySide, desired.entryOpen, now);
      FailedOr(ok, desired, p, now);
      if !ok { return; }
      ok := Request(ExitSide, desired.exitOpen, now);
      FailedOr(ok, desired, p, now);
      if !ok { return; }
      ok := Lamp(EntrySide, GreenWanted(desired, p, EntrySide));
      FailedOr(ok, desired, p, now);
      if !ok { return; }
      ok := Lamp(ExitSide, GreenWanted(desired, p, ExitSide));
      FailedOr(ok, desired, p, now);
      if !ok { return; }
      ok := Sound(BuzzerReady(desired, p), now);
      FailedOr(ok, desired, p, now);
      if !ok { return; }
      Confirm(EntrySide, desired, p, now);
      Confirm(ExitSide, desired, p, now);
    }

    lemma FailedOr(ok: bool, desired: Outputs, p: Position, now: Time)
      ensures !ok ==>
                var w, hw := Working(false), plant.hw;
                && C.Request(hw, w, ExitSide, desired.exitOpen, now) == w && Lamps(hw, w, desired, p) == w
                && C.Lamp(hw, w, ExitSide, GreenWanted(desired, p, ExitSide)) == w
                && C.Sound(hw, w, timing, BuzzerReady(desired, p), now) == w && Confirmed(w, timing, desired, p, now) == w
    {
      FailedStaysFailed(plant.hw, timing, Working(false), desired, p, now);
    }

    method Rest()
      modifies this
      ensures State() == Rested(old(State()))
    {
      applied, lastReady, buzzerUntil, entrySince, exitSince := ALL_OFF, false, None, None, None;
    }

    /** One poll. */
    method Step(poll: Poll) returns (ok: bool)
      requires Wired()
      modifies this, plant
      ensures Working(ok) == PollOnce(plant.hw, timing, old(State()), old(plant.State()), poll)
    {
      hide C.Reconcile, RemoteOutputs.SafeState;
      if poll.inputs.None? {
        safe := false;
        plant.Hear(INPUTS_LOST);
        return false;
      }
      var p := poll.inputs.value;
      if !safe {
        ok := outputs.SafeState();
        if !ok {
          plant.Hear(UNSAFE);
          return false;
        }
        Rest();
        safe := true;
      }
      plant.Hear(ClearFault(RemoteIO));
      plant.Hear(SeePosition(p));
      if !poll.seen { return false; }
      var atEntry, atExit := Contradicts(p, EntrySide), Contradicts(p, ExitSide);
      if atEntry || atExit {
        if atEntry { plant.Hear(ContradictionFault(EntrySide)); }
        if atExit { plant.Hear(ContradictionFault(ExitSide)); }
        ok := outputs.SafeState();
        if !ok {
          IoFault();
          return;
        }
        Rest();
        return true;
      }
      ok := Reconcile(poll.desired, p, poll.now);
    }
  }
}
