/**
 The recorder around the whole workflow: the log is a faithful replica of it, and losing an entry locks it out.
 */
module RecorderProofs {
  import opened Domain
  import opened EngineSpec
  import opened EngineProofs
  import opened EngineTheorems
  import opened TwoPass
  import opened TwoPassProofs
  import R = Recorders
  import opened Interleaving

  datatype Logged = Logged(world: World, log: seq<R.Entry>)

  const AUDIT_LOST := SetFault(Fault(AuditStore, Faulty, "operational audit append failed", false, true))

  /** How many of n appends, the first being append number `at`, succeed before one fails. */
  function Reaches(disk: nat -> bool, at: nat, n: nat): (k: nat)
    ensures k <= n && (k < n ==> !disk(at + k)) && forall i {:trigger disk(i)} :: at <= i < at + k ==> disk(i)
    decreases n
  {
    if n == 0 then 0
    else
      var k := Reaches(disk, at, n - 1);
      if k == n - 1 && disk(at + n - 1) then n else k
  }

  /** The appends before one that fails all reach the file, and no other number does. */
  lemma ReachesExactly(disk: nat -> bool, at: nat, n: nat, i: nat)
    requires i <= n && (i < n ==> !disk(at + i)) && forall k {:trigger disk(k)} :: at <= k < at + i ==> disk(k)
    ensures Reaches(disk, at, n) == i
  {
  }

  /** One action under the recorder's lock; `disk` is the fate of each append. Other callers' store transactions pass it by. */
  ghost function Record(set_: Settings, o: Outside, l: Logged, e: WorldEvent, disk: nat -> bool): Logged {
    var w := Act(set_, o, l.world, e);
    if e.Elsewhere? then l.(world := w)
    else
      var entries := R.Diff(Snapshot(l.world), Snapshot(w));
      var k := Reaches(disk, |l.log|, |entries|);
      Logged(if k == |entries| then w else Act(set_, o, w, Device(AUDIT_LOST)), l.log + entries[..k])
  }

  /** What the caller is told: that the action succeeded, and every entry was appended. */
  ghost function Reported(set_: Settings, o: Outside, l: Logged, e: WorldEvent, disk: nat -> bool): bool {
    var entries := R.Diff(Snapshot(l.world), Snapshot(Act(set_, o, l.world, e)));
    Answer(set_, o, l.world, e) && Reaches(disk, |l.log|, |entries|) == |entries|
  }

  ghost function RecordAll(set_: Settings, l: Logged, script: seq<Cue>, disk: nat -> bool): Logged {
    if script == [] then l
    else
      var last := script[|script| - 1];
      Record(set_, last.o, RecordAll(set_, l, script[..|script| - 1], disk), last.e, disk)
  }

  lemma OutcomeLeavesID(v: View, o: Outcome)
    ensures WithOutcome(v, o).id == v.id
  {
  }

  lemma SnapshotNamesTransaction(w: World)
    ensures Snapshot(w).Some? <==> w.eng.tx.Some?
    ensures w.eng.tx.Some? ==> Snapshot(w).value.id == TxID(w.eng)
  {
    hide WithOutcome;
    if w.eng.tx.Some? && w.eng.tx.value.id in w.bridge.outcomes {
      OutcomeLeavesID(BaseView(w, w.eng.tx.value), w.bridge.outcomes[w.eng.tx.value.id]);
    }
  }

  lemma ElsewhereIsInvisible(set_: Settings, o: Outside, w: World, a: Action)
    ensures Snapshot(Act(set_, o, w, Elsewhere(a))) == Snapshot(w)
  {
    hide WithOutcome;
    var w' := Act(set_, o, w, Elsewhere(a));
    if w.eng.tx.Some? { assert BaseView(w', w.eng.tx.value) == BaseView(w, w.eng.tx.value); }
  }

  /** The log shows what the live snapshot shows. */
  ghost predicate Live(l: Logged) {
    R.Replay(None, l.log) == R.Show(Snapshot(l.world))
  }

  lemma RecordKeepsLive(set_: Settings, o: Outside, l: Logged, e: WorldEvent, disk: nat -> bool)
    requires WorldInv(set_, l.world) && Live(l) && forall i: nat :: disk(i)
    ensures Live(Record(set_, o, l, e, disk)) && Record(set_, o, l, e, disk).world == Act(set_, o, l.world, e)
  {
    hide WorldInv, Act, Snapshot, R.Diff;
    var w := Act(set_, o, l.world, e);
    if e.Elsewhere? {
      ElsewhereIsInvisible(set_, o, l.world, e.a);
    } else {
      ActKeeps(set_, o, l.world, e);
      SnapshotNamesTransaction(l.world);
      SnapshotNamesTransaction(w);
      var prev, cur := Snapshot(l.world), Snapshot(w);
      R.DiffReplaysExactly(prev, cur);
      R.ReplayAppends(None, l.log, R.Diff(prev, cur));
      var entries := R.Diff(prev, cur);
      assert entries[..|entries|] == entries;
    }
  }

  /** Over every run in which no append fails, replaying the workflow's own entries of the log gives, after every action, the
      state and the desired outputs the live snapshot shows. */
  lemma {:induction false} LogReplaysTheWorkflow(set_: Settings, script: seq<Cue>, disk: nat -> bool)
    requires set_.cfg.confirmations > 0 && forall i: nat :: disk(i)
    ensures var l := RecordAll(set_, Logged(NEW_WORLD, []), script, disk);
            && R.Replay(None, l.log) == R.Show(Snapshot(l.world))
            && l.world == Play(set_, NEW_WORLD, script) && WorldInv(set_, l.world)
  {
    hide WorldInv, Act, Snapshot, Record;
    var l0 := Logged(NEW_WORLD, []);
    NewWorldInv(set_);
    if script != [] {
      var init, last := script[..|script| - 1], script[|script| - 1];
      LogReplaysTheWorkflow(set_, init, disk);
      var l := RecordAll(set_, l0, init, disk);
      RecordKeepsLive(set_, last.o, l, last.e, disk);
      ActKeeps(set_, last.o, l.world, last.e);
    } else {
      NothingShown();
    }
  }

  lemma NothingShown()
    ensures Snapshot(NEW_WORLD) == None
  {
  }

  // ---------- the faults the log shows ----------

  ghost function LogAt(set_: Settings, script: seq<Cue>, disk: nat -> bool, k: nat): Logged
    requires k <= |script|
  {
    RecordAll(set_, Logged(NEW_WORLD, []), script[..k], disk)
  }

  /** After k actions a reader of the fault entries knows exactly the faults that stand. */
  ghost predicate FaultsRight(set_: Settings, script: seq<Cue>, disk: nat -> bool, k: nat)
    requires k <= |script|
  {
    var l := LogAt(set_, script, disk, k);
    R.ReplayFaults({}, l.log) == R.FaultsOf(Snapshot(l.world))
  }

  /** Action k replaces a fault by another with the same device and reason. */
  ghost predicate MasksAt(set_: Settings, script: seq<Cue>, k: nat)
    requires k < |script|
  {
    R.Masks(Snapshot(Play(set_, NEW_WORLD, script[..k])), Snapshot(Play(set_, NEW_WORLD, script[..k + 1])))
  }

  /** One more action, all of it recorded. */
  lemma NextLog(set_: Settings, script: seq<Cue>, disk: nat -> bool, k: nat)
    requires set_.cfg.confirmations > 0 && k < |script| && forall i: nat :: disk(i)
    ensures var l, r := LogAt(set_, script, disk, k), LogAt(set_, script, disk, k + 1);
            && l.world == Play(set_, NEW_WORLD, script[..k]) && r.world == Play(set_, NEW_WORLD, script[..k + 1])
            && r.log == l.log + R.Diff(Snapshot(l.world), Snapshot(r.world))
            && (Snapshot(l.world).Some? && Snapshot(r.world).Some? ==> Snapshot(l.world).value.id == Snapshot(r.world).value.id)
  {
    hide WorldInv, Act, Snapshot, R.Diff, Play;
    assert script[..k + 1][..k] == script[..k];
    var l, cue := LogAt(set_, script, disk, k), script[k];
    LogReplaysTheWorkflow(set_, script[..k], disk);
    LogReplaysTheWorkflow(set_, script[..k + 1], disk);
    ActKeeps(set_, cue.o, l.world, cue.e);
    var w := Act(set_, cue.o, l.world, cue.e);
    SnapshotNamesTransaction(l.world);
    SnapshotNamesTransaction(w);
    var entries := R.Diff(Snapshot(l.world), Snapshot(w));
    if cue.e.Elsewhere? {
      ElsewhereIsInvisible(set_, cue.o, l.world, cue.e.a);
      NothingChanged(Snapshot(w));
    } else {
      ReachesExactly(disk, |l.log|, |entries|, |entries|);
      assert entries[..|entries|] == entries;
    }
  }

  lemma NothingChanged(v: Option<View>)
    ensures R.Diff(v, v) == []
  {
    hide R.FaultDiff;
    if v.Some? { R.NoFaultChanges(v.value.faults); }
  }

  lemma NextFaults(set_: Settings, script: seq<Cue>, disk: nat -> bool, k: nat)
    requires set_.cfg.confirmations > 0 && k < |script| && (forall i: nat :: disk(i)) && FaultsRight(set_, script, disk, k)
    ensures FaultsRight(set_, script, disk, k + 1) <==> !MasksAt(set_, script, k)
  {
    hide Snapshot, R.Diff, Play, LogAt, R.Masks, R.FaultsOf;
    NextLog(set_, script, disk, k);
    var l, r := LogAt(set_, script, disk, k), LogAt(set_, script, disk, k + 1);
    var prev, cur := Snapshot(l.world), Snapshot(r.world);
    R.ReplayFaultsAppends({}, l.log, R.Diff(prev, cur));
    R.FaultsReplayExactly(prev, cur);
  }

  lemma {:induction false} FaultsUpTo(set_: Settings, script: seq<Cue>, disk: nat -> bool, k: nat)
    requires set_.cfg.confirmations > 0 && k <= |script| && forall i: nat :: disk(i)
    requires forall j :: 0 <= j < k ==> !MasksAt(set_, script, j)
    ensures FaultsRight(set_, script, disk, k)
  {
    hide MasksAt;
    if k == 0 {
      NothingShown();
    } else {
      hide FaultsRight;
      FaultsUpTo(set_, script, disk, k - 1);
      NextFaults(set_, script, disk, k - 1);
    }
  }

  /** Over every run in which no append fails, the fault entries tell after every action exactly which faults stand, if and only
      if no action replaces a fault by another with the same device and reason. */
  lemma LogShowsFaultsExactly(set_: Settings, script: seq<Cue>, disk: nat -> bool)
    requires set_.cfg.confirmations > 0 && forall i: nat :: disk(i)
    ensures (forall k :: 0 <= k <= |script| ==> FaultsRight(set_, script, disk, k))
            <==> (forall k :: 0 <= k < |script| ==> !MasksAt(set_, script, k))
  {
    hide FaultsRight, MasksAt;
    if forall k :: 0 <= k < |script| ==> !MasksAt(set_, script, k) {
      forall k | 0 <= k <= |script| ensures FaultsRight(set_, script, disk, k) { FaultsUpTo(set_, script, disk, k); }
    }
    if forall k :: 0 <= k <= |script| ==> FaultsRight(set_, script, disk, k) {
      forall k | 0 <= k < |script| ensures !MasksAt(set_, script, k) {
        assert FaultsRight(set_, script, disk, k + 1);
        NextFaults(set_, script, disk, k);
      }
    }
  }

  /** Every fault is kept under its own device. */
  predicate Keyed(m: map<Domain.Device, Fault>) {
    forall d :: d in m ==> m[d].device == d
  }

  lemma {:induction false} ListedExactly(m: map<Domain.Device, Fault>, devices: seq<Domain.Device>, f: Fault)
    requires Keyed(m)
    ensures f in FaultList(m, devices) <==> f.device in devices && f.device in m && m[f.device] == f
  {
    if devices != [] { ListedExactly(m, devices[1..], f); }
  }

  lemma EveryDevice(d: Domain.Device)
    ensures d in ALL_DEVICES
  {
    match d
    case Scale => assert ALL_DEVICES[0] == d;
    case Rfid => assert ALL_DEVICES[1] == d;
    case Lpr => assert ALL_DEVICES[2] == d;
    case EntrySensor => assert ALL_DEVICES[3] == d;
    case FrontSensor => assert ALL_DEVICES[4] == d;
    case RearSensor => assert ALL_DEVICES[5] == d;
    case ExitSensor => assert ALL_DEVICES[6] == d;
    case EntryBarrier => assert ALL_DEVICES[7] == d;
    case ExitBarrier => assert ALL_DEVICES[8] == d;
    case PhysicalSafety => assert ALL_DEVICES[9] == d;
    case RemoteIO => assert ALL_DEVICES[10] == d;
    case AuditStore => assert ALL_DEVICES[11] == d;
  }

  lemma OutcomeLeavesFaults(v: View, o: Outcome)
    ensures WithOutcome(v, o).faults == v.faults
  {
  }

  lemma SnapshotFaults(w: World, f: Fault)
    requires w.eng.tx.Some? && Keyed(w.eng.tx.value.faults)
    ensures var m := w.eng.tx.value.faults; f in R.FaultsOf(Snapshot(w)) <==> f.device in m && m[f.device] == f
  {
    hide WithOutcome, FaultList;
    var t := w.eng.tx.value;
    ListedExactly(t.faults, ALL_DEVICES, f);
    EveryDevice(f.device);
    if t.id in w.bridge.outcomes { OutcomeLeavesFaults(BaseView(w, t), w.bridge.outcomes[t.id]); }
  }

  lemma UnsoundFrame(set_: Settings, o: Outside, w: World, a: Audited)
    requires w.eng.tx.Some? && a.rawRef.Present() && !a.reading.Sound()
    ensures var r := Act(set_, o, w, Device(SeeScale(a)));
            && r.eng.tx.Some? && r.eng.faults == w.eng.faults[Scale := ScaleFault(a.reading)] && r.eng.tx.value.faults == r.eng.faults
  {
    hide Commit;
  }

  /** It does happen: in any transaction, a scale that fails a second time with another health masks its own fault, and a reader
      of the log sees the scale recovered. */
  lemma ScaleFailingTwiceMasks(set_: Settings, o1: Outside, o2: Outside, w: World, a: Audited, b: Audited)
    requires w.eng.tx.Some? && Keyed(w.eng.faults)
    requires a.rawRef.Present() && b.rawRef.Present() && !a.reading.Sound() && !b.reading.Sound() && a.reading.health != b.reading.health
    ensures var w1 := Act(set_, o1, w, Device(SeeScale(a)));
            var w2 := Act(set_, o2, w1, Device(SeeScale(b)));
            && R.Masks(Snapshot(w1), Snapshot(w2)) && ScaleFault(b.reading) in R.FaultsOf(Snapshot(w2))
  {
    hide Act, Snapshot, R.FaultsOf;
    var w1 := Act(set_, o1, w, Device(SeeScale(a)));
    var w2 := Act(set_, o2, w1, Device(SeeScale(b)));
    UnsoundFrame(set_, o1, w, a);
    UnsoundFrame(set_, o2, w1, b);
    SnapshotFaults(w1, ScaleFault(a.reading));
    SnapshotFaults(w2, ScaleFault(a.reading));
    SnapshotFaults(w2, ScaleFault(b.reading));
  }

  /** An entry that cannot be appended locks the current transaction out, in the same action; the entries before it are kept. */
  lemma LostEntryLocksOut(set_: Settings, o: Outside, l: Logged, e: WorldEvent, disk: nat -> bool)
    requires !e.Elsewhere?
    ensures var w, r := Act(set_, o, l.world, e), Record(set_, o, l, e, disk);
            var entries := R.Diff(Snapshot(l.world), Snapshot(w));
            && l.log <= r.log <= l.log + entries
            && (r.log != l.log + entries && w.eng.tx.Some? ==> Locked(r.world.eng) && TxID(r.world.eng) == TxID(w.eng))
  {
    hide Snapshot, R.Diff, Act;
    var w := Act(set_, o, l.world, e);
    var entries := R.Diff(Snapshot(l.world), Snapshot(w));
    var k := Reaches(disk, |l.log|, |entries|);
    assert entries == entries[..k] + entries[k..];
    if k == |entries| { assert entries[..k] == entries; }
    AuditLossLocks(set_, o, w);
  }

  lemma AuditLossLocks(set_: Settings, o: Outside, w: World)
    ensures w.eng.tx.Some? ==> var r := Act(set_, o, w, Device(AUDIT_LOST)); Locked(r.eng) && TxID(r.eng) == TxID(w.eng)
  {
  }
}
