/**
 The coils behind the remote I/O (internal/adapters/modbustcp/io.go) and the audit gate in front of them
 (internal/runtimeio/audited_outputs.go), as functions of the rig: the coils, the story of everything that happened to them
 and to the audit file, and the calls made into the workflow.
 */
module RemoteOutputs {
  import opened Domain
  import opened EngineSpec

  datatype Side = EntrySide | ExitSide

  datatype Coil = Red(side: Side) | Green(side: Side) | OpenRequest(side: Side) | Horn

  /** Addresses are 16 bits wide. */
  type Word = x: int | 0 <= x < 0x1_0000

  datatype Mapping = Mapping(
    entryRed: Word, entryGreen: Word, exitRed: Word, exitGreen: Word, buzzer: Word, entryOpen: Word, exitOpen: Word)

  function Addr(m: Mapping, c: Coil): nat {
    match c
    case Red(EntrySide) => m.entryRed
    case Red(ExitSide) => m.exitRed
    case Green(EntrySide) => m.entryGreen
    case Green(ExitSide) => m.exitGreen
    case OpenRequest(EntrySide) => m.entryOpen
    case OpenRequest(ExitSide) => m.exitOpen
    case Horn => m.buzzer
  }

  /** Every coil has its own address. The mapping parser does not enforce it. */
  ghost predicate Distinct(m: Mapping) {
    forall c, d {:trigger Addr(m, c), Addr(m, d)} :: Addr(m, c) == Addr(m, d) ==> c == d
  }

  /** `on` holds the addresses of the coils that are on. */
  predicate Lit(m: Mapping, on: set<nat>, c: Coil) {
    Addr(m, c) in on
  }

  datatype Put = Put(coil: Coil, value: bool)

  function Flip(m: Mapping, on: set<nat>, put: Put): set<nat> {
    if put.value then on + {Addr(m, put.coil)} else on - {Addr(m, put.coil)}
  }

  /** The fate of one write request: acknowledged, or failed with or without having taken effect. */
  datatype Wire = Acked | LostApplied | LostIgnored

  datatype Command = Light(side: Side, on: bool) | Buzz(on: bool) | Barrier(side: Side, on: bool)

  datatype Beat =
    | Intent(cmd: Command)
    | Wrote(put: Put, acked: bool, after: set<nat>)
    | Result(cmd: Command, done: bool)
    | SafeNoted
    | Unrecorded

  /** `since` is the length of the story when a safe state first succeeded. */
  datatype Rig = Rig(on: set<nat>, story: seq<Beat>, calls: seq<Event>, since: Option<nat>)

  /** What decides the fate of writes and of audit appends, by position in the story. */
  datatype Hw = Hw(m: Mapping, wire: nat -> Wire, disk: nat -> bool)

  datatype Did = Did(rig: Rig, ok: bool)

  // ---------- coil writes ----------

  function WriteCoil(hw: Hw, r: Rig, put: Put): Did {
    var w := hw.wire(|r.story|);
    var on := if w == LostIgnored then r.on else Flip(hw.m, r.on, put);
    Did(r.(on := on, story := r.story + [Wrote(put, w == Acked, on)]), w == Acked)
  }

  /** Writes in order, stopping at the first that fails. */
  function WriteAll(hw: Hw, r: Rig, puts: seq<Put>): Did
    decreases |puts|
  {
    if puts == [] then Did(r, true)
    else
      var d := WriteCoil(hw, r, puts[0]);
      if !d.ok then d else WriteAll(hw, d.rig, puts[1..])
  }

  /** Granting green takes red away first; withdrawing it takes green away first. */
  function Signal(side: Side, green: bool): seq<Put> {
    if green then [Put(Red(side), false), Put(Green(side), true)] else [Put(Green(side), false), Put(Red(side), true)]
  }

  function PutsOf(cmd: Command): seq<Put> {
    match cmd
    case Light(side, on) => Signal(side, on)
    case Buzz(on) => [Put(Horn, on)]
    case Barrier(side, on) => [Put(OpenRequest(side), on)]
  }

  const SAFE_PUTS :=
    [Put(Horn, false), Put(Green(EntrySide), false), Put(Red(EntrySide), true), Put(Green(ExitSide), false), Put(Red(ExitSide), true),
     Put(OpenRequest(EntrySide), false), Put(OpenRequest(ExitSide), false)]

  // ---------- the audit gate ----------

  const AUDIT_FAULT := SetFault(Fault(AuditStore, Faulty, "operational audit output gate failed", false, true))

  /** One audit append; when it fails the workflow is told. */
  function Note(hw: Hw, r: Rig, b: Beat): Did {
    if hw.disk(|r.story|) then Did(r.(story := r.story + [b]), true)
    else Did(r.(story := r.story + [Unrecorded], calls := r.calls + [AUDIT_FAULT]), false)
  }

  function Execute(hw: Hw, r: Rig, cmd: Command): Did {
    var d := WriteAll(hw, r, PutsOf(cmd));
    var n := Note(hw, d.rig, Result(cmd, d.ok));
    Did(n.rig, d.ok && (n.ok || !cmd.on))
  }

  /** A permissive command runs only once its intent is on record. */
  function Perform(hw: Hw, r: Rig, cmd: Command): Did {
    if !cmd.on then Execute(hw, r, cmd)
    else
      var n := Note(hw, r, Intent(cmd));
      if !n.ok then n else Execute(hw, n.rig, cmd)
  }

  /** The safe state is never blocked by the audit. */
  function SafeState(hw: Hw, r: Rig): Did {
    var d := WriteAll(hw, r, SAFE_PUTS);
    if !d.ok then d
    else
      var n := Note(hw, d.rig, SafeNoted).rig;
      Did(n.(since := if n.since.None? then Some(|d.rig.story|) else n.since), true)
  }
}

/**
 What the write order and the audit gate guarantee whatever fails.
 */
module RemoteOutputsProofs {
  import opened Domain
  import opened EngineSpec
  import opened RemoteOutputs

  // ---------- the interlock ----------

  /** No side shows red and green together, and green only over an open request. */
  ghost predicate Interlock(m: Mapping, on: set<nat>) {
    forall s: Side {:trigger Lit(m, on, Green(s))} :: Lit(m, on, Green(s)) ==> !Lit(m, on, Red(s)) && Lit(m, on, OpenRequest(s))
  }

  /** The interlock held right after every write from position k of the story on. */
  ghost predicate Trail(m: Mapping, story: seq<Beat>, k: nat) {
    forall i {:trigger story[i]} :: k <= i < |story| && story[i].Wrote? ==> Interlock(m, story[i].after)
  }

  /** Effective or not, this write does not break the interlock. */
  predicate Allowed(m: Mapping, on: set<nat>, put: Put) {
    match put.coil
    case Red(s) => put.value ==> !Lit(m, on, Green(s))
    case Green(s) => put.value ==> !Lit(m, on, Red(s)) && Lit(m, on, OpenRequest(s))
    case OpenRequest(s) => !put.value ==> !Lit(m, on, Green(s))
    case Horn => true
  }

  function FlipAll(m: Mapping, on: set<nat>, puts: seq<Put>): set<nat>
    decreases |puts|
  {
    if puts == [] then on else FlipAll(m, Flip(m, on, puts[0]), puts[1..])
  }

  /** Each write is allowed once those before it are acknowledged. */
  predicate Orderly(m: Mapping, on: set<nat>, puts: seq<Put>)
    decreases |puts|
  {
    puts == [] || (Allowed(m, on, puts[0]) && Orderly(m, Flip(m, on, puts[0]), puts[1..]))
  }

  lemma FlipLit(m: Mapping, on: set<nat>, put: Put)
    requires Distinct(m)
    ensures forall c {:trigger Lit(m, Flip(m, on, put), c)} ::
              Lit(m, Flip(m, on, put), c) == if c == put.coil then put.value else Lit(m, on, c)
  {
  }

  lemma AllowedKeeps(m: Mapping, on: set<nat>, put: Put)
    requires Distinct(m) && Interlock(m, on) && Allowed(m, on, put)
    ensures Interlock(m, Flip(m, on, put))
  {
    FlipLit(m, on, put);
  }

  /** An orderly list of writes never breaks the interlock, wherever it stops; when it succeeds it took effect in full. */
  lemma {:induction false} OrderlyKeeps(hw: Hw, r: Rig, puts: seq<Put>, k: nat)
    requires Distinct(hw.m) && Interlock(hw.m, r.on) && Orderly(hw.m, r.on, puts) && Trail(hw.m, r.story, k)
    ensures var d := WriteAll(hw, r, puts);
            && Interlock(hw.m, d.rig.on) && Trail(hw.m, d.rig.story, k)
    decreases |puts|
  {
    if puts != [] {
      var d := WriteCoil(hw, r, puts[0]);
      AllowedKeeps(hw.m, r.on, puts[0]);
      if d.ok { OrderlyKeeps(hw, d.rig, puts[1..], k); }
    }
  }

  /** Writing only appends writes, and success means every one took effect. */
  lemma {:induction false} WriteAllFrame(hw: Hw, r: Rig, puts: seq<Put>)
    ensures var d := WriteAll(hw, r, puts);
            && d.rig == r.(on := d.rig.on, story := d.rig.story)
            && r.story <= d.rig.story
            && (d.ok ==> d.rig.on == FlipAll(hw.m, r.on, puts))
    decreases |puts|
  {
    if puts != [] {
      var d := WriteCoil(hw, r, puts[0]);
      if d.ok { WriteAllFrame(hw, d.rig, puts[1..]); }
    }
  }

  lemma CommandIsOrderly(m: Mapping, on: set<nat>, cmd: Command)
    requires Distinct(m)
    requires cmd.Light? && cmd.on ==> Lit(m, on, OpenRequest(cmd.side))
    requires cmd.Barrier? && !cmd.on ==> !Lit(m, on, Green(cmd.side))
    ensures Orderly(m, on, PutsOf(cmd))
  {
    var puts := PutsOf(cmd);
    FlipLit(m, on, puts[0]);
    assert Orderly(m, FlipAll(m, on, puts), []);
    if |puts| == 2 {
      assert puts[1..][1..] == [];
      assert Orderly(m, Flip(m, on, puts[0]), puts[1..]);
    }
  }

  lemma SafeIsOrderly(m: Mapping, on: set<nat>)
    requires Distinct(m)
    ensures Orderly(m, on, SAFE_PUTS)
    ensures forall c {:trigger Lit(m, FlipAll(m, on, SAFE_PUTS), c)} :: Lit(m, FlipAll(m, on, SAFE_PUTS), c) == c.Red?
  {
    var p := SAFE_PUTS;
    var o1 := Flip(m, on, p[0]);
    var o2 := Flip(m, o1, p[1]);
    var o3 := Flip(m, o2, p[2]);
    var o4 := Flip(m, o3, p[3]);
    var o5 := Flip(m, o4, p[4]);
    var o6 := Flip(m, o5, p[5]);
    var o7 := Flip(m, o6, p[6]);
    FlipLit(m, on, p[0]); FlipLit(m, o1, p[1]); FlipLit(m, o2, p[2]); FlipLit(m, o3, p[3]);
    FlipLit(m, o4, p[4]); FlipLit(m, o5, p[5]); FlipLit(m, o6, p[6]);
    Unfold(m, o6, p[6], []);
    Unfold(m, o5, p[5], p[6..]);
    Unfold(m, o4, p[4], p[5..]);
    Unfold(m, o3, p[3], p[4..]);
    Unfold(m, o2, p[2], p[3..]);
    Unfold(m, o1, p[1], p[2..]);
    Unfold(m, on, p[0], p[1..]);
    assert p[6..] == [p[6]] + [] && p[5..] == [p[5]] + p[6..] && p[4..] == [p[4]] + p[5..];
    assert p[3..] == [p[3]] + p[4..] && p[2..] == [p[2]] + p[3..] && p[1..] == [p[1]] + p[2..] && p == [p[0]] + p[1..];
    assert FlipAll(m, on, p) == o7;
    forall c ensures Lit(m, o7, c) == c.Red? {
      match c
      case Red(EntrySide) => case Red(ExitSide) =>
      case Green(EntrySide) => case Green(ExitSide) =>
      case OpenRequest(EntrySide) => case OpenRequest(ExitSide) =>
      case Horn =>
    }
  }

  lemma Unfold(m: Mapping, on: set<nat>, put: Put, rest: seq<Put>)
    ensures FlipAll(m, on, [put] + rest) == FlipAll(m, Flip(m, on, put), rest)
    ensures Orderly(m, on, [put] + rest) <==> Allowed(m, on, put) && Orderly(m, Flip(m, on, put), rest)
  {
    assert ([put] + rest)[1..] == rest;
  }

  /** One gated command: the interlock survives every failure, and success means the coils took the command. */
  lemma PerformKeeps(hw: Hw, r: Rig, cmd: Command, k: nat)
    requires Distinct(hw.m) && Interlock(hw.m, r.on) && Trail(hw.m, r.story, k)
    requires cmd.Light? && cmd.on ==> Lit(hw.m, r.on, OpenRequest(cmd.side))
    requires cmd.Barrier? && !cmd.on ==> !Lit(hw.m, r.on, Green(cmd.side))
    ensures var d := Perform(hw, r, cmd);
            && Interlock(hw.m, d.rig.on) && Trail(hw.m, d.rig.story, k)
            && r.story <= d.rig.story && d.rig.since == r.since
            && (d.ok ==> d.rig.on == FlipAll(hw.m, r.on, PutsOf(cmd)))
  {
    CommandIsOrderly(hw.m, r.on, cmd);
    var r1 := if cmd.on then Note(hw, r, Intent(cmd)).rig else r;
    OrderlyKeeps(hw, r1, PutsOf(cmd), k);
    WriteAllFrame(hw, r1, PutsOf(cmd));
  }

  lemma PerformedCoils(m: Mapping, on: set<nat>, cmd: Command)
    requires Distinct(m)
    ensures forall c {:trigger Lit(m, FlipAll(m, on, PutsOf(cmd)), c)} ::
              Lit(m, FlipAll(m, on, PutsOf(cmd)), c) ==
                match cmd
                case Light(s, green) => (if c == Green(s) then green else if c == Red(s) then !green else Lit(m, on, c))
                case Buzz(v) => (if c == Horn then v else Lit(m, on, c))
                case Barrier(s, v) => (if c == OpenRequest(s) then v else Lit(m, on, c))
  {
    var puts := PutsOf(cmd);
    FlipLit(m, on, puts[0]);
    if |puts| == 2 {
      FlipLit(m, Flip(m, on, puts[0]), puts[1]);
      Unfold(m, Flip(m, on, puts[0]), puts[1], []);
      Unfold(m, on, puts[0], [puts[1]]);
      assert [puts[1]] + [] == [puts[1]] && puts == [puts[0]] + [puts[1]];
    } else {
      Unfold(m, on, puts[0], []);
      assert puts == [puts[0]] + [];
    }
  }

  /** From any coils whatever, a safe state that succeeds leaves exactly the two reds on; one that starts under the interlock
      keeps it even when it fails half way. */
  lemma SafeStateKeeps(hw: Hw, r: Rig, k: nat)
    requires Distinct(hw.m)
    ensures var d := SafeState(hw, r);
            && r.story <= d.rig.story
            && (d.ok ==> d.rig.since.Some? && (forall c :: Lit(hw.m, d.rig.on, c) <==> c.Red?))
            && (r.since.Some? || !d.ok ==> d.rig.since == r.since)
            && (Interlock(hw.m, r.on) && Trail(hw.m, r.story, k) ==> Interlock(hw.m, d.rig.on) && Trail(hw.m, d.rig.story, k))
            && (d.ok && r.since.None? ==> d.rig.since.value <= |d.rig.story| && Trail(hw.m, d.rig.story, d.rig.since.value))
  {
    hide WriteAll, FlipAll, Orderly, Distinct, Interlock;
    SafeIsOrderly(hw.m, r.on);
    WriteAllFrame(hw, r, SAFE_PUTS);
    if Interlock(hw.m, r.on) && Trail(hw.m, r.story, k) { OrderlyKeeps(hw, r, SAFE_PUTS, k); }
    var w := WriteAll(hw, r, SAFE_PUTS);
    var d := SafeState(hw, r);
    if d.ok {
      assert d.rig.on == FlipAll(hw.m, r.on, SAFE_PUTS);
      forall c ensures Lit(hw.m, d.rig.on, c) <==> c.Red? {
        assert Lit(hw.m, FlipAll(hw.m, r.on, SAFE_PUTS), c) == c.Red?;
      }
    }
  }

  // ---------- the audit gate ----------

  datatype Order = Give(cmd: Command) | Rest

  /** Orders one after another, each carried out whatever became of those before it. */
  function Obey(hw: Hw, r: Rig, orders: seq<Order>): Rig {
    if orders == [] then r
    else
      var n := |orders| - 1;
      var before := Obey(hw, r, orders[..n]);
      match orders[n]
      case Give(cmd) => Perform(hw, before, cmd).rig
      case Rest => SafeState(hw, before).rig
  }

  /** Everything permissive that is on in a is on in b, and every red on in b is on in a. */
  ghost predicate NoMorePermissive(m: Mapping, a: set<nat>, b: set<nat>) {
    forall c: Coil {:trigger Lit(m, a, c)} {:trigger Lit(m, b, c)} ::
              if c.Red? then Lit(m, b, c) ==> Lit(m, a, c) else Lit(m, a, c) ==> Lit(m, b, c)
  }

  ghost predicate Working(hw: Hw) {
    forall i: nat :: hw.wire(i) == Acked
  }

  lemma {:induction false} WorkingWrites(hw: Hw, r: Rig, puts: seq<Put>)
    requires Working(hw)
    ensures WriteAll(hw, r, puts).ok && WriteAll(hw, r, puts).rig.on == FlipAll(hw.m, r.on, puts)
    decreases |puts|
  {
    if puts != [] { WorkingWrites(hw, WriteCoil(hw, r, puts[0]).rig, puts[1..]); }
  }

  /** On working hardware the audit decides one thing: a permissive command whose intent cannot be recorded does nothing. */
  lemma GateDecides(hw: Hw, r: Rig, cmd: Command)
    requires Working(hw)
    ensures Perform(hw, r, cmd).rig.on == if cmd.on && !hw.disk(|r.story|) then r.on else FlipAll(hw.m, r.on, PutsOf(cmd))
  {
    WorkingWrites(hw, r, PutsOf(cmd));
    WorkingWrites(hw, Note(hw, r, Intent(cmd)).rig, PutsOf(cmd));
  }

  /** On working hardware, an audit file that fails in any pattern never leaves the outputs more permissive than one that never fails. */
  lemma {:induction false} AuditFailureOnlyRestricts(hw: Hw, healthy: Hw, r: Rig, h: Rig, orders: seq<Order>)
    requires Distinct(hw.m) && hw.m == healthy.m && Working(hw) && Working(healthy) && (forall i: nat :: healthy.disk(i))
    requires NoMorePermissive(hw.m, r.on, h.on)
    ensures NoMorePermissive(hw.m, Obey(hw, r, orders).on, Obey(healthy, h, orders).on)
  {
    if orders != [] {
      hide Perform, SafeState, NoMorePermissive, Distinct, Working;
      var n := |orders| - 1;
      AuditFailureOnlyRestricts(hw, healthy, r, h, orders[..n]);
      var a, b := Obey(hw, r, orders[..n]), Obey(healthy, h, orders[..n]);
      match orders[n]
      case Give(cmd) => CommandRestricts(hw, healthy, a, b, cmd);
      case Rest => SafetyRestricts(hw, healthy, a, b);
    }
  }

  lemma CommandRestricts(hw: Hw, healthy: Hw, a: Rig, b: Rig, cmd: Command)
    requires Distinct(hw.m) && hw.m == healthy.m && Working(hw) && Working(healthy) && (forall i: nat :: healthy.disk(i))
    requires NoMorePermissive(hw.m, a.on, b.on)
    ensures NoMorePermissive(hw.m, Perform(hw, a, cmd).rig.on, Perform(healthy, b, cmd).rig.on)
  {
    hide Perform, Distinct, Working, FlipAll, PutsOf;
    GateDecides(hw, a, cmd);
    GateDecides(healthy, b, cmd);
    PerformedCoils(hw.m, a.on, cmd);
    PerformedCoils(hw.m, b.on, cmd);
  }

  lemma SafetyRestricts(hw: Hw, healthy: Hw, a: Rig, b: Rig)
    requires Distinct(hw.m) && hw.m == healthy.m && Working(hw) && Working(healthy)
    ensures NoMorePermissive(hw.m, SafeState(hw, a).rig.on, SafeState(healthy, b).rig.on)
  {
    hide Distinct, Working, FlipAll, WriteAll;
    WorkingWrites(hw, a, SAFE_PUTS);
    WorkingWrites(healthy, b, SAFE_PUTS);
    SafeIsOrderly(hw.m, a.on);
    SafeIsOrderly(hw.m, b.on);
  }

  /** A permissive write at position k follows its own intent on record: directly, or with only the red it takes away between. */
  predicate Backed(story: seq<Beat>, k: nat)
    requires k < |story|
  {
    story[k].Wrote? && story[k].put.value && !story[k].put.coil.Red? ==>
      match story[k].put.coil
      case Green(s) => k >= 2 && story[k - 2] == Intent(Light(s, true)) && story[k - 1].Wrote? && story[k - 1].put == Put(Red(s), false)
      case OpenRequest(s) => k >= 1 && story[k - 1] == Intent(Barrier(s, true))
      case Horn => k >= 1 && story[k - 1] == Intent(Buzz(true))
      case Red(_) => true
  }

  ghost predicate AllBacked(story: seq<Beat>) {
    forall k {:trigger story[k]} :: 0 <= k < |story| ==> Backed(story, k)
  }

  lemma BackedGrows(a: seq<Beat>, b: Beat)
    requires AllBacked(a) && Backed(a + [b], |a|)
    ensures AllBacked(a + [b])
  {
    forall k | 0 <= k < |a + [b]| ensures Backed(a + [b], k) {
      if k < |a| { assert Backed(a, k); }
    }
  }

  lemma NoteIsBacked(hw: Hw, r: Rig, b: Beat)
    requires AllBacked(r.story) && !b.Wrote?
    ensures AllBacked(Note(hw, r, b).rig.story)
  {
    BackedGrows(r.story, if hw.disk(|r.story|) then b else Unrecorded);
  }

  lemma {:induction false} RestrictiveIsBacked(hw: Hw, r: Rig, puts: seq<Put>)
    requires AllBacked(r.story) && forall i :: 0 <= i < |puts| ==> puts[i].coil.Red? || !puts[i].value
    ensures AllBacked(WriteAll(hw, r, puts).rig.story)
    decreases |puts|
  {
    if puts != [] {
      var d := WriteCoil(hw, r, puts[0]);
      BackedGrows(r.story, d.rig.story[|r.story|]);
      if d.ok { RestrictiveIsBacked(hw, d.rig, puts[1..]); }
    }
  }

  /** Right after a recorded intent, the command's own writes are backed. */
  lemma ExecutedIsBacked(hw: Hw, r: Rig, cmd: Command)
    requires AllBacked(r.story) && r.story != [] && cmd.on && r.story[|r.story| - 1] == Intent(cmd)
    ensures AllBacked(WriteAll(hw, r, PutsOf(cmd)).rig.story)
  {
    var puts := PutsOf(cmd);
    var d := WriteCoil(hw, r, puts[0]);
    BackedGrows(r.story, d.rig.story[|r.story|]);
    if d.ok && cmd.Light? {
      var e := WriteCoil(hw, d.rig, puts[1]);
      BackedGrows(d.rig.story, e.rig.story[|d.rig.story|]);
      assert puts[1..][1..] == [] && WriteAll(hw, e.rig, []) == Did(e.rig, true);
      assert WriteAll(hw, d.rig, puts[1..]).rig == e.rig;
    } else {
      assert cmd.Light? || puts[1..] == [];
    }
  }

  lemma PerformIsBacked(hw: Hw, r: Rig, cmd: Command)
    requires AllBacked(r.story)
    ensures AllBacked(Perform(hw, r, cmd).rig.story)
  {
    var puts := PutsOf(cmd);
    if !cmd.on {
      RestrictiveIsBacked(hw, r, puts);
      var d := WriteAll(hw, r, puts);
      NoteIsBacked(hw, d.rig, Result(cmd, d.ok));
    } else {
      NoteIsBacked(hw, r, Intent(cmd));
      var n := Note(hw, r, Intent(cmd));
      if n.ok {
        ExecutedIsBacked(hw, n.rig, cmd);
        var d := WriteAll(hw, n.rig, puts);
        NoteIsBacked(hw, d.rig, Result(cmd, d.ok));
      }
    }
  }

  lemma SafeIsBacked(hw: Hw, r: Rig)
    requires AllBacked(r.story)
    ensures AllBacked(SafeState(hw, r).rig.story)
  {
    RestrictiveIsBacked(hw, r, SAFE_PUTS);
    NoteIsBacked(hw, WriteAll(hw, r, SAFE_PUTS).rig, SafeNoted);
  }

  /** Whatever fails, every permissive write that reached the wire has its own earlier intent on record. */
  lemma {:induction false} EveryPermissiveWriteIsBacked(hw: Hw, r: Rig, orders: seq<Order>)
    requires AllBacked(r.story)
    ensures AllBacked(Obey(hw, r, orders).story)
  {
    if orders != [] {
      var n := |orders| - 1;
      EveryPermissiveWriteIsBacked(hw, r, orders[..n]);
      match orders[n]
      case Give(cmd) => PerformIsBacked(hw, Obey(hw, r, orders[..n]), cmd);
      case Rest => SafeIsBacked(hw, Obey(hw, r, orders[..n]));
    }
  }

  // ---------- shared addresses ----------

  /** The interlock needs distinct addresses: with red and green of a side on one address, withdrawing green lights it. */
  lemma SharedAddressBreaksSafeState(hw: Hw, r: Rig)
    requires Working(hw) && hw.m == Mapping(0, 0, 2, 3, 4, 5, 6)
    ensures SafeState(hw, r).ok && Lit(hw.m, SafeState(hw, r).rig.on, Green(EntrySide))
  {
    var m, p := hw.m, SAFE_PUTS;
    WorkingWrites(hw, r, p);
    WriteAllFrame(hw, r, p);
    Unfold(m, r.on, p[0], p[1..]);
    assert p == [p[0]] + p[1..] && p[1..] == [p[1]] + p[2..] && p[2..] == [p[2]] + p[3..];
    var o1 := Flip(m, r.on, p[0]);
    Unfold(m, o1, p[1], p[2..]);
    Unfold(m, Flip(m, o1, p[1]), p[2], p[3..]);
    var o3 := Flip(m, Flip(m, o1, p[1]), p[2]);
    assert 0 in o3;
    StaysLit(m, o3, p[3..], 0);
  }

  lemma {:induction false} StaysLit(m: Mapping, on: set<nat>, puts: seq<Put>, a: nat)
    requires a in on && forall i :: 0 <= i < |puts| ==> puts[i].value || Addr(m, puts[i].coil) != a
    ensures a in FlipAll(m, on, puts)
    decreases |puts|
  {
    if puts != [] { StaysLit(m, Flip(m, on, puts[0]), puts[1..], a); }
  }
}
