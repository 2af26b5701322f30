/**
 Many coordinator calls at once: every step is one store transaction, and the steps of different calls interleave freely.
 */
module Interleaving {
  import opened Domain
  import opened Pairing
  import opened Ledger
  import opened LedgerProofs
  import opened Coordination

  /** A call between its transactions. */
  datatype Proc =
    | Returning(plan: Plan, d: Draw)
    | Expiring(todo: seq<WeighCycle>, at: Time)

  datatype Shop = Shop(db: DB, procs: map<nat, Proc>)

  datatype Action =
    | First(pass: WeighPass, d: Draw, disk: bool)
    | CallNow(id: string, now: Time, disk: bool)
    | Begin(pid: nat, pass: WeighPass, d: Draw, disk: bool)
    | End(pid: nat, disk: bool)
    | List(pid: nat, at: Time, listing: seq<WeighCycle>)
    | ExpireNext(pid: nat, disk: bool)
    | Ack(item: nat, now: Time, disk: bool)
    | Attempt(item: nat, error: string, next: Time, now: Time, disk: bool)

  const NEW_SHOP := Shop(EMPTY_DB, map[])

  /** One transaction of one call. A step of a call that is not there changes nothing. */
  ghost function Do(u: Unicode, policy: Policy, s: Shop, a: Action): Shop {
    match a
    case First(pass, d, disk) => s.(db := RecordFirstPass(u, s.db, pass, d, disk).db)
    case CallNow(id, now, disk) => s.(db := CallCycle(s.db, id, now, disk).db)
    case Begin(pid, pass, d, disk) => s.(procs := s.procs[pid := Returning(BeginSecond(u, policy, s.db, pass, d, disk), d)])
    case End(pid, disk) =>
      if pid in s.procs && s.procs[pid].Returning?
      then Shop(EndSecond(s.db, s.procs[pid].plan, s.procs[pid].d, disk).db, s.procs - {pid})
      else s
    case List(pid, at, listing) =>
      if policy.maxElapsed > 0 && IsQueue(s.db, listing) then s.(procs := s.procs[pid := Expiring(listing, at)]) else s
    case ExpireNext(pid, disk) =>
      if pid in s.procs && s.procs[pid].Expiring? && s.procs[pid].todo != [] then
        var c := s.procs[pid].todo[0];
        var rest := s.(procs := s.procs[pid := Expiring(s.procs[pid].todo[1..], s.procs[pid].at)]);
        if !Overdue(policy, c, s.procs[pid].at) then rest
        else
          var done := MarkCycleStatus(s.db, c.id, OrphanedFirstPass, disk);
          if done.ok then rest.(db := done.db) else s.(procs := s.procs - {pid})
      else s
    case Ack(item, now, disk) => s.(db := AckSync(s.db, item, now, disk).db)
    case Attempt(item, error, next, now, disk) => s.(db := MarkSyncAttempt(s.db, item, error, next, now, disk).db)
  }

  ghost function Run(u: Unicode, policy: Policy, s: Shop, acts: seq<Action>): Shop {
    if acts == [] then s
    else Do(u, policy, Run(u, policy, s, acts[..|acts| - 1]), acts[|acts| - 1])
  }

  ghost predicate ProcOK(db: DB, p: Proc) {
    p.Returning? ==> PlanOK(db, p.plan)
  }

  ghost predicate ShopOK(u: Unicode, s: Shop) {
    Consistent(u, s.db) && forall pid :: pid in s.procs ==> ProcOK(s.db, s.procs[pid])
  }

  lemma EmptyIsConsistent(u: Unicode)
    ensures ShopOK(u, NEW_SHOP)
  {
  }

  lemma DbStep(u: Unicode, policy: Policy, s: Shop, a: Action)
    requires ShopOK(u, s)
    ensures var s' := Do(u, policy, s, a); Consistent(u, s'.db) && Advances(s.db, s'.db)
  {
    match a
    case First(pass, d, disk) =>
      OpenKeeps(u, s.db, NewCycle(FirstPassOf(pass, d), d), d.now, disk);
    case CallNow(id, now, disk) => CallKeeps(u, s.db, id, now, disk);
    case Begin(pid, pass, d, disk) =>
    case End(pid, disk) =>
      if pid in s.procs && s.procs[pid].Returning? {
        assert ProcOK(s.db, s.procs[pid]);
        EndKeeps(u, s.db, s.procs[pid].plan, s.procs[pid].d, disk);
      }
    case List(pid, at, listing) =>
    case ExpireNext(pid, disk) =>
      if pid in s.procs && s.procs[pid].Expiring? && s.procs[pid].todo != [] {
        MarkKeeps(u, s.db, s.procs[pid].todo[0].id, OrphanedFirstPass, disk);
      }
    case Ack(item, now, disk) => AckKeeps(u, s.db, item, now, disk);
    case Attempt(item, error, next, now, disk) => AttemptKeeps(u, s.db, item, error, next, now, disk);
  }

  lemma ShopStep(u: Unicode, policy: Policy, s: Shop, a: Action)
    requires ShopOK(u, s)
    ensures var s' := Do(u, policy, s, a); ShopOK(u, s') && Advances(s.db, s'.db)
  {
    DbStep(u, policy, s, a);
    var s' := Do(u, policy, s, a);
    forall pid | pid in s'.procs ensures ProcOK(s'.db, s'.procs[pid]) {
      if pid in s.procs && s'.procs[pid] == s.procs[pid] {
        assert ProcOK(s.db, s.procs[pid]);
        if s.procs[pid].Returning? { PlanStays(s.db, s'.db, s.procs[pid].plan); }
      } else if a.Begin? {
        BeginPlansSoundly(u, policy, s.db, a.pass, a.d, a.disk);
      }
    }
  }

  /** Every state of every interleaving is consistent. */
  lemma {:induction false} EveryStateConsistent(u: Unicode, policy: Policy, s: Shop, acts: seq<Action>)
    requires ShopOK(u, s)
    ensures ShopOK(u, Run(u, policy, s, acts))
  {
    if acts != [] {
      EveryStateConsistent(u, policy, s, acts[..|acts| - 1]);
      ShopStep(u, policy, Run(u, policy, s, acts[..|acts| - 1]), acts[|acts| - 1]);
    }
  }

  /** Facts that only ever get stronger along a run: first passes stay, completed rows and their tickets are final. */
  ghost predicate Preserves(a: DB, b: DB) {
    && (forall c {:trigger b.cycles[c]} {:trigger a.cycles[c]} :: c in a.cycles ==>
         && c in b.cycles && b.cycles[c].cycle.first == a.cycles[c].cycle.first
         && (a.cycles[c].status == Complete ==> b.cycles[c] == a.cycles[c]))
    && (forall t {:trigger b.tickets[t]} {:trigger a.tickets[t]} :: t in a.tickets ==> t in b.tickets && b.tickets[t].ticket == a.tickets[t].ticket)
  }

  lemma {:induction false} RunPreserves(u: Unicode, policy: Policy, s: Shop, acts: seq<Action>)
    requires ShopOK(u, s)
    ensures ShopOK(u, Run(u, policy, s, acts)) && Preserves(s.db, Run(u, policy, s, acts).db)
  {
    if acts != [] {
      RunPreserves(u, policy, s, acts[..|acts| - 1]);
      ShopStep(u, policy, Run(u, policy, s, acts[..|acts| - 1]), acts[|acts| - 1]);
    }
  }

  lemma {:induction false} RunSplits(u: Unicode, policy: Policy, s: Shop, a: seq<Action>, b: seq<Action>)
    ensures Run(u, policy, s, a + b) == Run(u, policy, Run(u, policy, s, a), b)
  {
    if b == [] {
      assert a + b == a;
    } else {
      RunSplits(u, policy, s, a, b[..|b| - 1]);
      assert (a + b)[..|a + b| - 1] == a + b[..|b| - 1];
    }
  }

  ghost function StatusAt(u: Unicode, policy: Policy, acts: seq<Action>, k: nat, c: string): Option<CycleStatus>
    requires k <= |acts|
  {
    var db := Run(u, policy, NEW_SHOP, acts[..k]).db;
    if c in db.cycles then Some(db.cycles[c].status) else None
  }

  /** Step k completes cycle c. */
  ghost predicate CompletesAt(u: Unicode, policy: Policy, acts: seq<Action>, k: nat, c: string)
    requires k < |acts|
  {
    StatusAt(u, policy, acts, k, c) != Some(Complete) && StatusAt(u, policy, acts, k + 1, c) == Some(Complete)
  }

  lemma CompleteIsFinal(u: Unicode, policy: Policy, acts: seq<Action>, j: nat, k: nat, c: string)
    requires j <= k <= |acts| && StatusAt(u, policy, acts, j, c) == Some(Complete)
    ensures StatusAt(u, policy, acts, k, c) == Some(Complete)
    ensures Run(u, policy, NEW_SHOP, acts[..k]).db.cycles[c] == Run(u, policy, NEW_SHOP, acts[..j]).db.cycles[c]
  {
    EmptyIsConsistent(u);
    var mid := Run(u, policy, NEW_SHOP, acts[..j]);
    EveryStateConsistent(u, policy, NEW_SHOP, acts[..j]);
    assert acts[..k] == acts[..j] + acts[j..k];
    RunSplits(u, policy, NEW_SHOP, acts[..j], acts[j..k]);
    RunPreserves(u, policy, mid, acts[j..k]);
  }

  /** Under every interleaving a cycle is completed at most once, by the last transaction of a return,
      and only while the store itself says it is called. */
  lemma CompletedOnceFromCalled(u: Unicode, policy: Policy, acts: seq<Action>, c: string)
    ensures forall k :: 0 <= k < |acts| && CompletesAt(u, policy, acts, k, c) ==>
              StatusAt(u, policy, acts, k, c) == Some(Called) && acts[k].End? && acts[k].disk
    ensures forall j, k ::
              (0 <= j < |acts| && 0 <= k < |acts| && CompletesAt(u, policy, acts, j, c) && CompletesAt(u, policy, acts, k, c)) ==> j == k
  {
    EmptyIsConsistent(u);
    forall k | 0 <= k < |acts| && CompletesAt(u, policy, acts, k, c)
      ensures StatusAt(u, policy, acts, k, c) == Some(Called) && acts[k].End? && acts[k].disk
    {
      var s := Run(u, policy, NEW_SHOP, acts[..k]);
      EveryStateConsistent(u, policy, NEW_SHOP, acts[..k]);
      assert acts[..k + 1][..k] == acts[..k];
      ShopStep(u, policy, s, acts[k]);
      OnlyReturnsComplete(u, policy, s, acts[k], c);
    }
    forall j, k | 0 <= j < |acts| && 0 <= k < |acts| && CompletesAt(u, policy, acts, j, c) && CompletesAt(u, policy, acts, k, c)
      ensures j == k
    {
      if j < k { CompleteIsFinal(u, policy, acts, j + 1, k, c); }
      if k < j { CompleteIsFinal(u, policy, acts, k + 1, j, c); }
    }
  }

  ghost predicate IsComplete(db: DB, c: string) {
    c in db.cycles && db.cycles[c].status == Complete
  }

  lemma OpenCompletesNone(u: Unicode, db: DB, cycle: WeighCycle, now: Time, disk: bool, c: string)
    ensures IsComplete(OpenCycle(u, db, cycle, now, disk).db, c) ==> IsComplete(db, c)
  {
  }

  lemma CallCompletesNone(db: DB, id: string, at: Time, disk: bool, c: string)
    ensures IsComplete(CallCycle(db, id, at, disk).db, c) ==> IsComplete(db, c)
  {
  }

  lemma OrphaningCompletesNone(db: DB, id: string, disk: bool, c: string)
    ensures IsComplete(MarkCycleStatus(db, id, OrphanedFirstPass, disk).db, c) ==> IsComplete(db, c)
  {
  }

  lemma OutboxCompletesNone(db: DB, item: nat, error: string, next: Time, now: Time, disk: bool, c: string)
    ensures IsComplete(AckSync(db, item, now, disk).db, c) ==> IsComplete(db, c)
    ensures IsComplete(MarkSyncAttempt(db, item, error, next, now, disk).db, c) ==> IsComplete(db, c)
  {
  }

  lemma EndNeedsDisk(db: DB, plan: Plan, d: Draw, disk: bool)
    ensures EndSecond(db, plan, d, disk).db != db ==> disk
  {
  }

  lemma OnlyReturnsComplete(u: Unicode, policy: Policy, s: Shop, a: Action, c: string)
    requires !IsComplete(s.db, c) && IsComplete(Do(u, policy, s, a).db, c)
    ensures a.End? && a.disk
  {
    hide OpenCycle, CallCycle, MarkCycleStatus, AckSync, MarkSyncAttempt, BeginSecond, IsQueue, IsComplete, EndSecond;
    match a
    case First(pass, d, disk) => OpenCompletesNone(u, s.db, NewCycle(FirstPassOf(pass, d), d), d.now, disk, c); assert false;
    case CallNow(id, now, disk) => CallCompletesNone(s.db, id, now, disk, c); assert false;
    case Begin(pid, pass, d, disk) => assert false;
    case End(pid, disk) => if pid in s.procs && s.procs[pid].Returning? { EndNeedsDisk(s.db, s.procs[pid].plan, s.procs[pid].d, disk); }
    case List(pid, at, listing) => assert false;
    case ExpireNext(pid, disk) =>
      if pid in s.procs && s.procs[pid].Expiring? && s.procs[pid].todo != [] {
        OrphaningCompletesNone(s.db, s.procs[pid].todo[0].id, disk, c);
      }
      assert false;
    case Ack(item, now, disk) => OutboxCompletesNone(s.db, item, "", 0, now, disk, c); assert false;
    case Attempt(item, error, next, now, disk) => OutboxCompletesNone(s.db, item, error, next, now, disk, c); assert false;
  }

  // ---------- when an orphan comes back ----------

  ghost predicate IsOrphan(db: DB, c: string) {
    c in db.cycles && db.cycles[c].status == OrphanedFirstPass
  }

  /** The last transaction of a return that read the cycle while it was called and only wants to mark it. */
  predicate Resurrects(s: Shop, a: Action, c: string) {
    && a.End? && a.disk && a.pid in s.procs && s.procs[a.pid].Returning?
    && var plan := s.procs[a.pid].plan; plan.Mark? && plan.open.id == c && plan.status != OrphanedFirstPass
  }

  lemma MarkedRow(u: Unicode, db: DB, id: string, status: CycleStatus, disk: bool, c: string)
    requires Consistent(u, db) && IsOrphan(db, c)
    ensures var d := MarkCycleStatus(db, id, status, disk).db;
            c in d.cycles && d.cycles[c].status == if disk && id == c then status else OrphanedFirstPass
  {
    assert RowOK(u, db.passes, c, db.cycles[c]);
    if id in db.cycles { assert RowOK(u, db.passes, id, db.cycles[id]); }
  }

  lemma OpenLeavesOrphan(u: Unicode, db: DB, cycle: WeighCycle, now: Time, disk: bool, c: string)
    requires IsOrphan(db, c)
    ensures IsOrphan(OpenCycle(u, db, cycle, now, disk).db, c)
  {
  }

  lemma CallLeavesOrphan(u: Unicode, db: DB, id: string, at: Time, disk: bool, c: string)
    requires Consistent(u, db) && IsOrphan(db, c)
    ensures IsOrphan(CallCycle(db, id, at, disk).db, c)
  {
    assert RowOK(u, db.passes, c, db.cycles[c]);
    if id in db.cycles { assert RowOK(u, db.passes, id, db.cycles[id]); }
  }

  lemma CompletionLeavesOrphan(db: DB, cycle: WeighCycle, ticket: Ticket, clock: Time, disk: bool, c: string)
    requires IsOrphan(db, c)
    ensures IsOrphan(CompleteCycle(db, cycle, ticket, clock, disk).db, c)
  {
  }

  lemma OutboxLeavesOrphan(db: DB, item: nat, error: string, next: Time, now: Time, disk: bool, c: string)
    requires IsOrphan(db, c)
    ensures IsOrphan(AckSync(db, item, now, disk).db, c) && IsOrphan(MarkSyncAttempt(db, item, error, next, now, disk).db, c)
  {
  }

  lemma EndAndOrphan(u: Unicode, db: DB, plan: Plan, d: Draw, disk: bool, c: string)
    requires Consistent(u, db) && IsOrphan(db, c)
    ensures IsOrphan(EndSecond(db, plan, d, disk).db, c)
            <==> !(disk && plan.Mark? && plan.open.id == c && plan.status != OrphanedFirstPass)
  {
    hide MarkCycleStatus, CompleteCycle, Consistent;
    match plan
    case Refuse(_, _) =>
    case Mark(open, status, _) => MarkedRow(u, db, open.id, status, disk, c);
    case Finish(paired, ticket) => CompletionLeavesOrphan(db, paired, ticket, d.now, disk, c);
  }

  lemma ExpiryAndOrphan(u: Unicode, policy: Policy, s: Shop, pid: nat, disk: bool, c: string)
    requires Consistent(u, s.db) && IsOrphan(s.db, c)
    ensures IsOrphan(Do(u, policy, s, ExpireNext(pid, disk)).db, c)
  {
    hide MarkCycleStatus, Consistent;
    if pid in s.procs && s.procs[pid].Expiring? && s.procs[pid].todo != [] {
      MarkedRow(u, s.db, s.procs[pid].todo[0].id, OrphanedFirstPass, disk, c);
    }
  }

  /** One transaction, of any call: an orphan stays one exactly unless this is the write-back of a return that was planned
      while the cycle was still called. */
  lemma OrphanStaysExactly(u: Unicode, policy: Policy, s: Shop, a: Action, c: string)
    requires Consistent(u, s.db) && IsOrphan(s.db, c)
    ensures IsOrphan(Do(u, policy, s, a).db, c) <==> !Resurrects(s, a, c)
  {
    hide Consistent, OpenCycle, CallCycle, EndSecond, BeginSecond, AckSync, MarkSyncAttempt, IsQueue;
    match a
    case First(pass, d, disk) => OpenLeavesOrphan(u, s.db, NewCycle(FirstPassOf(pass, d), d), d.now, disk, c);
    case CallNow(id, now, disk) => CallLeavesOrphan(u, s.db, id, now, disk, c);
    case Begin(pid, pass, d, disk) =>
    case End(pid, disk) =>
      if pid in s.procs && s.procs[pid].Returning? { EndAndOrphan(u, s.db, s.procs[pid].plan, s.procs[pid].d, disk, c); }
    case List(pid, at, listing) =>
    case ExpireNext(pid, disk) => ExpiryAndOrphan(u, policy, s, pid, disk, c);
    case Ack(item, now, disk) => OutboxLeavesOrphan(s.db, item, "", 0, now, disk, c);
    case Attempt(item, error, next, now, disk) => OutboxLeavesOrphan(s.db, item, error, next, now, disk, c);
  }

  ghost predicate OrphanAt(u: Unicode, policy: Policy, s: Shop, acts: seq<Action>, k: nat, c: string)
    requires k <= |acts|
  {
    IsOrphan(Run(u, policy, s, acts[..k]).db, c)
  }

  ghost predicate ResurrectsAt(u: Unicode, policy: Policy, s: Shop, acts: seq<Action>, k: nat, c: string)
    requires k < |acts|
  {
    Resurrects(Run(u, policy, s, acts[..k]), acts[k], c)
  }

  lemma NextOrphan(u: Unicode, policy: Policy, s: Shop, acts: seq<Action>, k: nat, c: string)
    requires ShopOK(u, s) && k < |acts| && OrphanAt(u, policy, s, acts, k, c)
    ensures OrphanAt(u, policy, s, acts, k + 1, c) <==> !ResurrectsAt(u, policy, s, acts, k, c)
  {
    hide Consistent, Do, IsOrphan, Resurrects;
    assert acts[..k + 1][..k] == acts[..k];
    EveryStateConsistent(u, policy, s, acts[..k]);
    OrphanStaysExactly(u, policy, Run(u, policy, s, acts[..k]), acts[k], c);
  }

  lemma {:induction false} OrphanUpTo(u: Unicode, policy: Policy, s: Shop, acts: seq<Action>, k: nat, c: string)
    requires ShopOK(u, s) && IsOrphan(s.db, c) && k <= |acts|
    requires forall i :: 0 <= i < |acts| ==> !ResurrectsAt(u, policy, s, acts, i, c)
    ensures OrphanAt(u, policy, s, acts, k, c)
  {
    hide ShopOK, ResurrectsAt, IsOrphan;
    if k == 0 {
      assert acts[..0] == [];
    } else {
      OrphanUpTo(u, policy, s, acts, k - 1, c);
      NextOrphan(u, policy, s, acts, k - 1, c);
    }
  }

  /** Over every run an orphan holds throughout exactly when no step of it is such a write-back. */
  lemma OrphanHoldsExactly(u: Unicode, policy: Policy, s: Shop, acts: seq<Action>, c: string)
    requires ShopOK(u, s) && IsOrphan(s.db, c)
    ensures (forall k :: 0 <= k <= |acts| ==> OrphanAt(u, policy, s, acts, k, c))
            <==> (forall k :: 0 <= k < |acts| ==> !ResurrectsAt(u, policy, s, acts, k, c))
  {
    hide ShopOK, ResurrectsAt, OrphanAt, IsOrphan;
    if forall k :: 0 <= k < |acts| ==> !ResurrectsAt(u, policy, s, acts, k, c) {
      forall k | 0 <= k <= |acts| ensures OrphanAt(u, policy, s, acts, k, c) {
        OrphanUpTo(u, policy, s, acts, k, c);
      }
    }
    if forall k :: 0 <= k <= |acts| ==> OrphanAt(u, policy, s, acts, k, c) {
      forall k | 0 <= k < |acts| ensures !ResurrectsAt(u, policy, s, acts, k, c) {
        assert OrphanAt(u, policy, s, acts, k, c) && OrphanAt(u, policy, s, acts, k + 1, c);
        NextOrphan(u, policy, s, acts, k, c);
      }
    }
  }

  /** The return with this pass finds cycle c called and is turned down for something else than being the wrong truck. */
  ghost predicate TurnsDown(u: Unicode, policy: Policy, db: DB, pass: WeighPass, d: Draw, disk: bool, c: string) {
    && pass.direction == BToA && disk
    && var f := FindCalled(u, db, pass.plate, pass.rfid);
       && f.Found? && f.cycle.id == c
       && var v := ValidatePair(f.cycle.first, SecondPassOf(pass, d).(cycleID := c), policy);
          !v.valid && v.status != WrongTruck
  }

  /** Exactly such a beginning plans a write-back; it marks the cycle CALLED, or PAIR_TIME_INVALID when the window is over. */
  lemma WriteBackIsPlannedExactly(u: Unicode, policy: Policy, db: DB, pass: WeighPass, d: Draw, disk: bool, c: string)
    requires Consistent(u, db)
    ensures var plan := BeginSecond(u, policy, db, pass, d, disk);
            && (plan.Mark? && plan.open.id == c <==> TurnsDown(u, policy, db, pass, d, disk, c))
            && (plan.Mark? && plan.open.id == c ==>
                  && c in db.cycles && db.cycles[c].status == Called
                  && (plan.status == Called || plan.status == PairTimeInvalid)
                  && (plan.status == PairTimeInvalid <==>
                       && policy.maxElapsed > 0
                       && ValidatePair(plan.open.first, SecondPassOf(pass, d).(cycleID := c), policy).status == PairTimeInvalid
                       && ValidatePair(plan.open.first, SecondPassOf(pass, d).(cycleID := c), policy).elapsed > policy.maxElapsed))
  {
    hide ValidatePair, Consistent;
    FoundIsCalled(u, db, pass.plate, pass.rfid);
  }

  /** Step j began the return whose plan process pid still holds. */
  ghost predicate BeganAt(u: Unicode, policy: Policy, acts: seq<Action>, j: nat, pid: nat, plan: Plan)
    requires j < |acts|
  {
    && acts[j].Begin? && acts[j].pid == pid
    && plan == BeginSecond(u, policy, Run(u, policy, NEW_SHOP, acts[..j]).db, acts[j].pass, acts[j].d, acts[j].disk)
  }

  lemma {:induction false} PlanHasItsBegin(u: Unicode, policy: Policy, acts: seq<Action>, k: nat, pid: nat) returns (j: nat)
    requires k <= |acts|
    requires var s := Run(u, policy, NEW_SHOP, acts[..k]); pid in s.procs && s.procs[pid].Returning?
    ensures j < k && BeganAt(u, policy, acts, j, pid, Run(u, policy, NEW_SHOP, acts[..k]).procs[pid].plan)
  {
    hide BeginSecond, EndSecond, RecordFirstPass, IsQueue;
    assert acts[..0] == [];
    assert k > 0;
    assert acts[..k][..k - 1] == acts[..k - 1];
    var s := Run(u, policy, NEW_SHOP, acts[..k - 1]);
    if acts[k - 1].Begin? && acts[k - 1].pid == pid {
      j := k - 1;
    } else {
      ProcsStay(u, policy, s, acts[k - 1], pid);
      j := PlanHasItsBegin(u, policy, acts, k - 1, pid);
    }
  }

  /** Only its own beginning gives a process a plan. */
  lemma ProcsStay(u: Unicode, policy: Policy, s: Shop, a: Action, pid: nat)
    requires !(a.Begin? && a.pid == pid)
    requires var s' := Do(u, policy, s, a); pid in s'.procs && s'.procs[pid].Returning?
    ensures pid in s.procs && s.procs[pid] == Do(u, policy, s, a).procs[pid]
  {
    hide BeginSecond, EndSecond, RecordFirstPass, IsQueue, MarkCycleStatus;
  }

  /** So whenever an orphan comes back, some earlier step of the same call found the cycle called and turned the truck down. */
  lemma ResurrectionHasItsBegin(u: Unicode, policy: Policy, acts: seq<Action>, k: nat, c: string) returns (j: nat)
    requires k < |acts| && ResurrectsAt(u, policy, NEW_SHOP, acts, k, c)
    ensures j < k && acts[j].Begin? && acts[j].pid == acts[k].pid
    ensures TurnsDown(u, policy, Run(u, policy, NEW_SHOP, acts[..j]).db, acts[j].pass, acts[j].d, acts[j].disk, c)
    ensures StatusAt(u, policy, acts, j, c) == Some(Called)
  {
    hide BeginSecond, TurnsDown, Consistent;
    j := PlanHasItsBegin(u, policy, acts, k, acts[k].pid);
    EmptyIsConsistent(u);
    EveryStateConsistent(u, policy, NEW_SHOP, acts[..j]);
    WriteBackIsPlannedExactly(u, policy, Run(u, policy, NEW_SHOP, acts[..j]).db, acts[j].pass, acts[j].d, acts[j].disk, c);
  }

  // ---------- an orphan can come back ----------

  const P1 := WeighPass("P1", "", 1, AToB, "S", "A1", "R", Weight(4000, 10, RawRef(1, "h")), Normal, [], [], 11)
  const P2 := WeighPass("P2", "", 2, BToA, "S", "A1", "R", Weight(8000, 20, RawRef(2, "i")), Normal, [], [], 21)
  const WINDOW := NO_LIMITS.(maxElapsed := 50)

  const D1 := Draw(11, "", "C", "")
  const D2 := Draw(21, "", "", "T")
  const CALLED_C := WeighCycle("C", "S", "A1", "R", Called, P1.(cycleID := "C"), None, 11, Some(12), None, 0, 0, 0, 0)

  ghost predicate OnlyC(u: Unicode, db: DB, c: WeighCycle) {
    db.cycles == map["C" := CycleRow(c.status, VehicleKey(u, "A1"), "P1", None, 0, 0, 0, c)]
  }

  lemma QueueAndCall(u: Unicode)
    requires RightOnAscii(u)
    ensures OnlyC(u, Do(u, WINDOW, Do(u, WINDOW, NEW_SHOP, First(P1, D1, true)), CallNow("C", 12, true)).db, CALLED_C)
  {
    KeyOfA1(u);
    var c := CALLED_C.(status := Queued, calledAt := None);
    assert NewCycle(FirstPassOf(P1, D1), D1) == c && Prepared(c, 11) == c;
    var s1 := Do(u, WINDOW, NEW_SHOP, First(P1, D1, true));
    assert OnlyC(u, s1.db, c);
  }

  lemma HeavyReturnPlansCalled(u: Unicode, db: DB)
    requires RightOnAscii(u) && OnlyC(u, db, CALLED_C)
    ensures BeginSecond(u, WINDOW, db, P2, D2, true) == Mark(CALLED_C, Called, InvalidPair)
  {
    KeyOfA1(u);
    assert CalledMatches(u, db, "A1", "R") == {"C"};
  }

  const RETURN_C := Returning(Mark(CALLED_C, Called, InvalidPair), D2)

  lemma BeginAndList(u: Unicode, s: Shop)
    requires RightOnAscii(u) && OnlyC(u, s.db, CALLED_C)
    ensures Do(u, WINDOW, Do(u, WINDOW, s, Begin(0, P2, D2, true)), List(1, 100, [CALLED_C]))
            == s.(procs := s.procs[0 := RETURN_C][1 := Expiring([CALLED_C], 100)])
  {
    HeavyReturnPlansCalled(u, s.db);
    assert QueueIDs(s.db) == {"C"};
    assert [CALLED_C][0].id == "C" && IsQueue(s.db, [CALLED_C]);
  }

  lemma ExpireThenEnd(u: Unicode, s: Shop)
    requires OnlyC(u, s.db, CALLED_C) && 0 in s.procs && s.procs[0] == RETURN_C && 1 in s.procs && s.procs[1] == Expiring([CALLED_C], 100)
    ensures var s' := Do(u, WINDOW, s, ExpireNext(1, true));
            && OnlyC(u, s'.db, CALLED_C.(status := OrphanedFirstPass))
            && OnlyC(u, Do(u, WINDOW, s', End(0, true)).db, CALLED_C)
  {
    var s' := Do(u, WINDOW, s, ExpireNext(1, true));
    assert OnlyC(u, s'.db, CALLED_C.(status := OrphanedFirstPass));
  }

  const COMES_BACK := [First(P1, D1, true), CallNow("C", 12, true), Begin(0, P2, D2, true),
                       List(1, 100, [CALLED_C]), ExpireNext(1, true), End(0, true)]

  ghost function ShopAt(u: Unicode, k: nat): Shop
    requires k <= 6
  {
    Run(u, WINDOW, NEW_SHOP, COMES_BACK[..k])
  }

  lemma Turn(u: Unicode, k: nat)
    requires k < 6
    ensures ShopAt(u, k + 1) == Do(u, WINDOW, ShopAt(u, k), COMES_BACK[k])
  {
    assert COMES_BACK[..k + 1][..k] == COMES_BACK[..k];
  }

  lemma OnlyStatus(u: Unicode, k: nat, c: WeighCycle)
    requires k <= 6 && OnlyC(u, ShopAt(u, k).db, c)
    ensures StatusAt(u, WINDOW, COMES_BACK, k, "C") == Some(c.status)
  {
  }

  /** Expiry is not final: a return that found the cycle called, but failed on weight, writes CALLED back over ORPHANED. */
  lemma OrphanCanBeResurrected(u: Unicode)
    requires RightOnAscii(u)
    ensures StatusAt(u, WINDOW, COMES_BACK, 5, "C") == Some(OrphanedFirstPass)
    ensures StatusAt(u, WINDOW, COMES_BACK, 6, "C") == Some(Called)
  {
    hide Do, RightOnAscii, ShopAt, OnlyC, StatusAt;
    Turn(u, 0); Turn(u, 1); Turn(u, 2); Turn(u, 3); Turn(u, 4); Turn(u, 5);
    AtFirst(u);
    QueueAndCall(u);
    BeginAndList(u, ShopAt(u, 2));
    ExpireThenEnd(u, ShopAt(u, 4));
    OnlyStatus(u, 5, CALLED_C.(status := OrphanedFirstPass));
    OnlyStatus(u, 6, CALLED_C);
  }

  lemma AtFirst(u: Unicode)
    ensures ShopAt(u, 0) == NEW_SHOP
  {
    assert COMES_BACK[..0] == [];
  }

  lemma KeyOfA1(u: Unicode)
    requires RightOnAscii(u)
    ensures VehicleKey(u, "A1") != "" && CycleIdentity("A1") != ""
  {
    KeysAgreeOnAscii(u, "A1");
    assert CycleIdentity("A1") == ['A'] + CycleIdentity("1");
  }
}
