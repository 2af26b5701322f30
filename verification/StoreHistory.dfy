/**
 What the columns of the store say of the past: every row was opened by a first pass and called by a call, at the times it says, and every
 outbox item counts its attempts and carries the time of its acknowledgement.
 */
module StoreHistories {
  import opened Domain
  import opened Pairing
  import opened Ledger
  import opened LedgerProofs
  import opened Coordination
  import opened Interleaving

  // ---------- what a call and a mark do to one row ----------

  /** Every other row and every other table is as it was. */
  ghost predicate OnlyRow(a: DB, b: DB, id: string) {
    && b.passes == a.passes && b.tickets == a.tickets && b.outbox == a.outbox && b.nextSync == a.nextSync
    && id in a.cycles && id in b.cycles && b.cycles == a.cycles[id := b.cycles[id]]
  }

  /** Calling succeeds exactly for a queued or a called row; a queued one is then called, now, and nothing else changes. */
  lemma CallExactly(u: Unicode, db: DB, id: string, at: Time, disk: bool)
    requires Consistent(u, db)
    ensures var r := CallCycle(db, id, at, disk);
            && (r.ok <==> disk && id in db.cycles && (db.cycles[id].status == Queued || db.cycles[id].status == Called))
            && (if r.ok && db.cycles[id].status == Queued then
                  && OnlyRow(db, r.db, id) && r.db.cycles[id].status == Called
                  && r.db.cycles[id].cycle == db.cycles[id].cycle.(status := Called, calledAt := Some(at))
                  && r.db.cycles[id] == db.cycles[id].(status := Called, cycle := r.db.cycles[id].cycle)
                else r.db == db)
  {
    hide VehicleKey, PassesOK, TicketsOK, OutboxOK;
    if id in db.cycles { assert RowOK(u, db.passes, id, db.cycles[id]); }
  }

  /** Marking succeeds exactly for a row that is not complete; it then has that status and nothing else changes. */
  lemma MarkExactly(u: Unicode, db: DB, id: string, status: CycleStatus, disk: bool)
    requires Consistent(u, db)
    ensures var r := MarkCycleStatus(db, id, status, disk);
            && (r.ok <==> disk && id in db.cycles && db.cycles[id].status != Complete)
            && (if r.ok then
                  && OnlyRow(db, r.db, id)
                  && r.db.cycles[id] == db.cycles[id].(status := status, cycle := db.cycles[id].cycle.(status := status))
                else r.db == db)
  {
    hide VehicleKey, PassesOK, TicketsOK, OutboxOK;
    if id in db.cycles { assert RowOK(u, db.passes, id, db.cycles[id]); }
  }

  /** An item that is there is acknowledged together with its ticket, at the same time; nothing else changes. */
  lemma AckExactly(u: Unicode, db: DB, id: nat, now: Time, disk: bool)
    requires Consistent(u, db)
    ensures var r := AckSync(db, id, now, disk);
            && (r.ok <==> disk && id in db.outbox) && (!r.ok ==> r.db == db)
            && (r.ok ==>
                 var t := db.outbox[id].payload.id;
                 && t in db.tickets && r.db.cycles == db.cycles && r.db.passes == db.passes
                 && r.db.outbox == db.outbox[id := db.outbox[id].(ackedAt := Some(now), lastError := "")]
                 && r.db.tickets == db.tickets[t := TicketRow(db.outbox[id].payload, Some(now))])
  {
    if id in db.outbox {
      assert ItemOK(db.tickets, id, db.outbox[id]);
      var e := db.outbox[id].entity;
      assert TicketOK(db.cycles, e, db.tickets[e].ticket);
    }
  }

  /** A cycle opened without a plate, a tag, a station or a time takes its first pass's, and without that the time of opening. */
  lemma OpeningFillsIn(u: Unicode, db: DB, c: WeighCycle, now: Time, disk: bool)
    ensures var r := OpenCycle(u, db, c, now, disk);
            r.ok ==>
              && c.id in r.db.cycles
              && var k := r.db.cycles[c.id].cycle;
                 && k.plate == (if c.plate != "" then c.plate else c.first.plate)
                 && k.rfid == (if c.rfid != "" then c.rfid else c.first.rfid)
                 && k.station == (if c.station != "" then c.station else c.first.station)
                 && k.queuedAt == (if c.queuedAt != 0 then c.queuedAt else if c.first.committedAt != 0 then c.first.committedAt else now)
                 && k.first == c.first.(cycleID := c.id, number := 1) && k.calledAt == c.calledAt && k.status == Queued
  {
    hide CycleIdentity, VehicleKey;
  }

  // ---------- the search for a called cycle ----------

  /** The row is called, has the plate's key, and no tag tells it apart. */
  predicate Answers(u: Unicode, r: CycleRow, plate: string, rfid: string) {
    r.status == Called && r.plateKey == VehicleKey(u, plate) && (rfid == "" || r.cycle.rfid == "" || r.cycle.rfid == rfid)
  }

  ghost predicate OneAnswers(u: Unicode, db: DB, plate: string, rfid: string, c: string) {
    c in db.cycles && forall d :: d in db.cycles ==> (Answers(u, db.cycles[d], plate, rfid) <==> d == c)
  }

  /** A search finds a cycle exactly when the plate has a key and one row alone answers; it finds none exactly when the plate has no key or
      no row answers, and cannot tell exactly when several do. */
  lemma SearchExactly(u: Unicode, db: DB, plate: string, rfid: string)
    ensures var f, keyed := FindCalled(u, db, plate, rfid), VehicleKey(u, plate) != "";
            && (forall c :: c in db.cycles && OneAnswers(u, db, plate, rfid, c) && keyed ==> f == Found(db.cycles[c].cycle))
            && (f.Found? ==> keyed && exists c :: c in db.cycles && OneAnswers(u, db, plate, rfid, c) && f.cycle == db.cycles[c].cycle)
            && (f.NotFound? <==> !keyed || !exists c :: c in db.cycles && Answers(u, db.cycles[c], plate, rfid))
            && (f.Ambiguous? <==> keyed && exists c, d :: c in db.cycles && d in db.cycles && c != d
                                                          && Answers(u, db.cycles[c], plate, rfid) && Answers(u, db.cycles[d], plate, rfid))
  {
    hide VehicleKey;
    var m := CalledMatches(u, db, plate, rfid);
    assert forall c :: c in m <==> c in db.cycles && Answers(u, db.cycles[c], plate, rfid);
    if |m| == 1 {
      var c := TheOne(m);
      OnlyOne(m, c);
      assert OneAnswers(u, db, plate, rfid, c);
    } else if |m| > 1 {
      var c :| c in m;
      var rest := m - {c};
      assert |rest| == |m| - 1;
      var d :| d in rest;
    }
    forall c, d | c in m && d in m && c != d ensures |m| > 1 { Larger({c, d}, m); }
  }

  /** Why a return is refused before any cycle is found: it is not on the way back, the store fails, nobody called answers, or several do. */
  lemma RefusalsExactly(u: Unicode, policy: Policy, db: DB, pass: WeighPass, d: Draw, disk: bool)
    ensures var plan, keyed, back := BeginSecond(u, policy, db, pass, d, disk), VehicleKey(u, pass.plate) != "", pass.direction == BToA;
            && (plan == Refuse(InvalidPair, None) <==> !back)
            && (plan == Refuse(StoreFailed, None) <==> back && !disk)
            && (plan == Refuse(NoCalledCycle, None) <==>
                 back && disk && (!keyed || !exists c :: c in db.cycles && Answers(u, db.cycles[c], pass.plate, pass.rfid)))
            && (plan == Refuse(AmbiguousCall, None) <==>
                 back && disk && keyed
                 && exists c, e :: c in db.cycles && e in db.cycles && c != e
                                   && Answers(u, db.cycles[c], pass.plate, pass.rfid) && Answers(u, db.cycles[e], pass.plate, pass.rfid))
  {
    hide VehicleKey, FindCalled, Answers, ValidatePair;
    SearchExactly(u, db, pass.plate, pass.rfid);
  }

  lemma OnlyOne(m: set<string>, c: string)
    requires |m| == 1 && c in m
    ensures m == {c}
  {
    forall d | d in m ensures d == c {
      if d != c { Larger({c, d}, m); }
    }
  }

  // ---------- the times of a cycle ----------

  /** The times, the station, the plate and the tag of c are those of d. */
  predicate SameOrigin(c: WeighCycle, d: WeighCycle) {
    && c.queuedAt == d.queuedAt && c.calledAt == d.calledAt && c.station == d.station && c.plate == d.plate && c.rfid == d.rfid
    && c.first == d.first
  }

  /** A row has been called exactly if it is past QUEUED by a call; one that is CALLED or COMPLETE has. */
  predicate CalledInTime(r: CycleRow) {
    && (r.status == Queued ==> r.cycle.calledAt.None?)
    && (r.status == Called || r.status == Complete ==> r.cycle.calledAt.Some?)
  }

  /** What a return plans rests on a row that has been called, as it still is. */
  predicate PlanRests(db: DB, p: Plan) {
    match p
    case Refuse(_, _) => true
    case Mark(open, _, _) => open.id in db.cycles && db.cycles[open.id].cycle.calledAt.Some?
    case Finish(paired, _) => paired.id in db.cycles && db.cycles[paired.id].cycle.calledAt.Some? && SameOrigin(paired, db.cycles[paired.id].cycle)
  }

  ghost predicate RowsInTime(db: DB) {
    forall c {:trigger db.cycles[c]} :: c in db.cycles ==> CalledInTime(db.cycles[c])
  }

  ghost predicate HistoryOK(s: Shop) {
    && RowsInTime(s.db)
    && forall pid {:trigger s.procs[pid]} :: pid in s.procs && s.procs[pid].Returning? ==> PlanRests(s.db, s.procs[pid].plan)
  }

  /** From a to b a row keeps its origin, except that it may be called at last. */
  predicate OriginStays(a: CycleRow, b: CycleRow) {
    SameOrigin(b.cycle, a.cycle.(calledAt := b.cycle.calledAt)) && (a.cycle.calledAt.Some? ==> b.cycle.calledAt == a.cycle.calledAt)
  }

  ghost predicate OriginsStay(a: DB, b: DB) {
    forall c {:trigger b.cycles[c]} {:trigger a.cycles[c]} :: c in a.cycles ==> c in b.cycles && OriginStays(a.cycles[c], b.cycles[c])
  }

  lemma OpenedInTime(u: Unicode, db: DB, pass: WeighPass, d: Draw, disk: bool)
    requires RowsInTime(db)
    ensures var r := RecordFirstPass(u, db, pass, d, disk).db; RowsInTime(r) && OriginsStay(db, r)
  {    hide CycleIdentity, VehicleKey, FirstPassOK;
  }

  lemma CallInTime(u: Unicode, db: DB, id: string, now: Time, disk: bool)
    requires RowsInTime(db) && Consistent(u, db)
    ensures var r := CallCycle(db, id, now, disk).db; RowsInTime(r) && OriginsStay(db, r)
  {
    if id in db.cycles { assert RowOK(u, db.passes, id, db.cycles[id]); }
  }

  lemma MarkInTime(u: Unicode, db: DB, id: string, status: CycleStatus, disk: bool)
    requires RowsInTime(db) && Consistent(u, db) && status != Complete && status != Queued
    requires status == Called && id in db.cycles ==> db.cycles[id].cycle.calledAt.Some?
    ensures var r := MarkCycleStatus(db, id, status, disk).db; RowsInTime(r) && OriginsStay(db, r)
  {
    hide PassesOK, TicketsOK, OutboxOK, VehicleKey;
    if id in db.cycles { assert RowOK(u, db.passes, id, db.cycles[id]); }
  }

  lemma CompletionInTime(u: Unicode, db: DB, plan: Plan, d: Draw, disk: bool)
    requires RowsInTime(db) && plan.Finish? && PlanRests(db, plan)
    ensures var r := CompleteCycle(db, plan.paired, plan.ticket, d.now, disk).db; RowsInTime(r) && OriginsStay(db, r)
  {
    hide ValidatePair, FinalTicket;
  }

  lemma EndInTime(u: Unicode, db: DB, plan: Plan, d: Draw, disk: bool)
    requires RowsInTime(db) && Consistent(u, db) && PlanOK(db, plan) && PlanRests(db, plan) && MarksCalled(plan)
    ensures var r := EndSecond(db, plan, d, disk).db; RowsInTime(r) && OriginsStay(db, r)
  {
    hide Ledger.MarkCycleStatus, Ledger.CompleteCycle, Consistent;
    match plan
    case Refuse(_, _) =>
    case Mark(open, status, _) => MarkInTime(u, db, open.id, status, disk);
    case Finish(_, _) => CompletionInTime(u, db, plan, d, disk);
  }

  /** A return writes back CALLED, or closes the window. */
  predicate MarksCalled(p: Plan) {
    p.Mark? ==> p.status == Called || p.status == PairTimeInvalid
  }

  lemma BeginRests(u: Unicode, policy: Policy, db: DB, pass: WeighPass, d: Draw, disk: bool)
    requires RowsInTime(db) && Consistent(u, db)
    ensures var p := BeginSecond(u, policy, db, pass, d, disk); PlanRests(db, p) && MarksCalled(p)
  {
    hide ValidatePair;
    FoundIsCalled(u, db, pass.plate, pass.rfid);
  }

  lemma PlanRestsOn(a: DB, b: DB, p: Plan)
    requires PlanRests(a, p) && OriginsStay(a, b)
    ensures PlanRests(b, p)
  {
  }

  ghost predicate ProcsMark(s: Shop) {
    forall pid {:trigger s.procs[pid]} :: pid in s.procs && s.procs[pid].Returning? ==> MarksCalled(s.procs[pid].plan)
  }

  lemma TablesInTime(u: Unicode, policy: Policy, s: Shop, a: Action)
    requires ShopOK(u, s) && HistoryOK(s) && ProcsMark(s)
    ensures var r := Do(u, policy, s, a).db; RowsInTime(r) && OriginsStay(s.db, r)
  {
    hide RecordFirstPass, Ledger.CallCycle, EndSecond, Ledger.MarkCycleStatus, Consistent;
    match a
    case First(pass, d, disk) => OpenedInTime(u, s.db, pass, d, disk);
    case CallNow(id, now, disk) => CallInTime(u, s.db, id, now, disk);
    case End(pid, disk) =>
      if pid in s.procs && s.procs[pid].Returning? {
        assert ProcOK(s.db, s.procs[pid]);
        EndInTime(u, s.db, s.procs[pid].plan, s.procs[pid].d, disk);
      }
    case ExpireNext(pid, disk) =>
      if pid in s.procs && s.procs[pid].Expiring? && s.procs[pid].todo != [] {
        MarkInTime(u, s.db, s.procs[pid].todo[0].id, OrphanedFirstPass, disk);
      }
    case _ =>
  }

  lemma StepInTime(u: Unicode, policy: Policy, s: Shop, a: Action)
    requires ShopOK(u, s) && HistoryOK(s) && ProcsMark(s)
    ensures var r := Do(u, policy, s, a); HistoryOK(r) && ProcsMark(r) && OriginsStay(s.db, r.db)
  {
    hide BeginSecond, PlanRests, OriginsStay, RowsInTime, MarksCalled;
    TablesInTime(u, policy, s, a);
    var r := Do(u, policy, s, a);
    forall pid | pid in r.procs && r.procs[pid].Returning? ensures PlanRests(r.db, r.procs[pid].plan) && MarksCalled(r.procs[pid].plan) {
      if pid in s.procs && r.procs[pid] == s.procs[pid] {
        PlanRestsOn(s.db, r.db, s.procs[pid].plan);
      } else {
        assert a.Begin? && r.db == s.db;
        ShopIsConsistent(u, s);
        BeginRests(u, policy, s.db, a.pass, a.d, a.disk);
      }
    }
  }

  lemma ShopIsConsistent(u: Unicode, s: Shop)
    requires ShopOK(u, s)
    ensures Consistent(u, s.db)
  {
  }

  lemma {:induction false} EveryHistoryOK(u: Unicode, policy: Policy, acts: seq<Action>)
    ensures var s := Run(u, policy, NEW_SHOP, acts); ShopOK(u, s) && HistoryOK(s) && ProcsMark(s)
  {
    hide Do, ShopOK, HistoryOK, ProcsMark;
    EmptyIsConsistent(u);
    if acts == [] {
      NothingYet();
    } else {
      var n := |acts| - 1;
      EveryHistoryOK(u, policy, acts[..n]);
      StepInTime(u, policy, Run(u, policy, NEW_SHOP, acts[..n]), acts[n]);
      ShopStep(u, policy, Run(u, policy, NEW_SHOP, acts[..n]), acts[n]);
    }
  }

  lemma NothingYet()
    ensures HistoryOK(NEW_SHOP) && ProcsMark(NEW_SHOP)
  {
  }

  // ---------- who opened it, who called it ----------

  ghost function DbAt(u: Unicode, policy: Policy, acts: seq<Action>, k: nat): DB
    requires k <= |acts|
  {
    Run(u, policy, NEW_SHOP, acts[..k]).db
  }

  /** Step i opened row c: a first pass, stored as the first of a new cycle, queued when it was committed, or else then. */
  ghost predicate OpenedBy(u: Unicode, policy: Policy, acts: seq<Action>, i: nat, c: string, r: CycleRow)
    requires i < |acts|
  {
    && c !in DbAt(u, policy, acts, i).cycles && acts[i].First? && acts[i].disk && acts[i].d.cycleID == c
    && var pass, d := acts[i].pass, acts[i].d;
       && r.cycle.first == pass.(id := if pass.id == "" then d.passID else pass.id, cycleID := c, number := 1, direction := AToB,
                                 committedAt := if pass.committedAt == 0 then d.now else pass.committedAt)
       && r.cycle.plate == pass.plate && r.cycle.rfid == pass.rfid && r.cycle.station == pass.station
       && (r.cycle.first.committedAt != 0 ==> r.cycle.queuedAt == r.cycle.first.committedAt)
  }

  /** Step i called row c, at the time it says. */
  ghost predicate CalledBy(u: Unicode, policy: Policy, acts: seq<Action>, i: nat, c: string, r: CycleRow)
    requires i < |acts|
  {
    && c in DbAt(u, policy, acts, i).cycles && DbAt(u, policy, acts, i).cycles[c].status == Queued
    && acts[i].CallNow? && acts[i].id == c && acts[i].disk && r.cycle.calledAt == Some(acts[i].now)
  }

  lemma NewRowIsOpened(u: Unicode, policy: Policy, s: Shop, a: Action, c: string)
    requires ShopOK(u, s) && c !in s.db.cycles && c in Do(u, policy, s, a).db.cycles
    ensures a.First? && a.disk && a.d.cycleID == c && FirstPassOK(FirstPassOf(a.pass, a.d))
    ensures var r, p := Do(u, policy, s, a).db.cycles[c], FirstPassOf(a.pass, a.d).(cycleID := c);
            && r.status == Queued && r.cycle.calledAt.None? && r.cycle.first == p
            && r.cycle.plate == OrElse(p.plate, p.plate) && r.cycle.rfid == p.rfid && r.cycle.station == p.station
            && (p.committedAt != 0 ==> r.cycle.queuedAt == p.committedAt)
  {
    hide CycleIdentity, EndSecond, VehicleKey;
    match a
    case First(pass, d, disk) =>
    case End(pid, disk) =>
      if pid in s.procs && s.procs[pid].Returning? { EndOpensNothing(u, s.db, s.procs[pid].plan, s.procs[pid].d, disk, c); }
    case _ =>
  }

  lemma EndOpensNothing(u: Unicode, db: DB, plan: Plan, d: Draw, disk: bool, c: string)
    requires c !in db.cycles
    ensures c !in EndSecond(db, plan, d, disk).db.cycles
  {
    hide ValidatePair, FinalTicket;
  }

  lemma OnlyCallsCall(u: Unicode, policy: Policy, s: Shop, a: Action, c: string)
    requires ShopOK(u, s) && HistoryOK(s) && ProcsMark(s) && c in s.db.cycles && s.db.cycles[c].cycle.calledAt.None?
    requires c in Do(u, policy, s, a).db.cycles && Do(u, policy, s, a).db.cycles[c].cycle.calledAt.Some?
    ensures a.CallNow? && a.id == c && a.disk && s.db.cycles[c].status == Queued
    ensures Do(u, policy, s, a).db.cycles[c].cycle.calledAt == Some(a.now)
  {
    hide RecordFirstPass, EndSecond, Consistent;
    ShopIsConsistent(u, s);
    match a
    case First(pass, d, disk) => OpeningCallsNobody(u, s.db, pass, d, disk, c);
    case CallNow(id, now, disk) => ConsistentRow(u, s.db, c); if id in s.db.cycles { ConsistentRow(u, s.db, id); }
    case End(pid, disk) =>
      if pid in s.procs && s.procs[pid].Returning? { EndCallsNobody(u, s.db, s.procs[pid].plan, s.procs[pid].d, disk, c); }
    case ExpireNext(pid, disk) =>
      if pid in s.procs && s.procs[pid].Expiring? && s.procs[pid].todo != [] && s.procs[pid].todo[0].id in s.db.cycles {
        ConsistentRow(u, s.db, s.procs[pid].todo[0].id);
      }
    case _ =>
  }

  lemma ConsistentRow(u: Unicode, db: DB, c: string)
    requires Consistent(u, db) && c in db.cycles
    ensures db.cycles[c].cycle.id == c && db.cycles[c].status == db.cycles[c].cycle.status
  {
    assert RowOK(u, db.passes, c, db.cycles[c]);
  }

  lemma OpeningCallsNobody(u: Unicode, db: DB, pass: WeighPass, d: Draw, disk: bool, c: string)
    requires c in db.cycles
    ensures var r := RecordFirstPass(u, db, pass, d, disk).db; c in r.cycles && r.cycles[c] == db.cycles[c]
  {
    hide CycleIdentity, VehicleKey;
  }

  lemma EndCallsNobody(u: Unicode, db: DB, plan: Plan, d: Draw, disk: bool, c: string)
    requires Consistent(u, db) && PlanRests(db, plan) && c in db.cycles && db.cycles[c].cycle.calledAt.None?
    ensures var r := EndSecond(db, plan, d, disk).db; c in r.cycles && r.cycles[c].cycle.calledAt.None?
  {
    hide ValidatePair, FinalTicket, Consistent;
    if plan.Mark? { ConsistentRow(u, db, plan.open.id); }
  }

  /** Every row of every reachable store was opened by a first pass and carries its plate, its tag, its station and its time; and every row
      that is CALLED or COMPLETE was called while QUEUED, and carries the time of that call. */
  lemma {:induction false} EveryRowHasItsPast(u: Unicode, policy: Policy, acts: seq<Action>, c: string)
    requires c in DbAt(u, policy, acts, |acts|).cycles
    ensures var r := DbAt(u, policy, acts, |acts|).cycles[c];
            && (exists i :: 0 <= i < |acts| && OpenedBy(u, policy, acts, i, c, r))
            && (r.cycle.calledAt.Some? <==> exists i :: 0 <= i < |acts| && CalledBy(u, policy, acts, i, c, r))
            && (r.status == Called || r.status == Complete ==> r.cycle.calledAt.Some?)
  {
    hide Do, ShopOK, HistoryOK, ProcsMark, Consistent, FirstPassOK;
    var n := |acts| - 1;
    assert acts[..|acts|] == acts;
    EveryHistoryOK(u, policy, acts);
    RowInTime(Run(u, policy, NEW_SHOP, acts), c);
    var init := acts[..n];
    var s := Run(u, policy, NEW_SHOP, init);
    EveryHistoryOK(u, policy, init);
    assert init[..n] == init;
    var r := DbAt(u, policy, acts, |acts|).cycles[c];
    if c in s.db.cycles {
      EveryRowHasItsPast(u, policy, init, c);
      var i :| 0 <= i < n && OpenedBy(u, policy, init, i, c, s.db.cycles[c]);
      StepInTime(u, policy, s, acts[n]);
      PastStays(u, policy, acts, c, i, s.db.cycles[c], r);
      if s.db.cycles[c].cycle.calledAt.Some? {
        var j :| 0 <= j < n && CalledBy(u, policy, init, j, c, s.db.cycles[c]);
        CallStays(u, policy, acts, c, j, s.db.cycles[c], r);
      } else if r.cycle.calledAt.Some? {
        OnlyCallsCall(u, policy, s, acts[n], c);
        assert CalledBy(u, policy, acts, n, c, r);
      }
    } else {
      NewRowIsOpened(u, policy, s, acts[n], c);
      OpenedNow(acts[n].pass, acts[n].d);
      assert OpenedBy(u, policy, acts, n, c, r);
    }
  }

  lemma RowInTime(s: Shop, c: string)
    requires HistoryOK(s) && c in s.db.cycles
    ensures CalledInTime(s.db.cycles[c])
  {
  }

  lemma OpenedNow(pass: WeighPass, d: Draw)
    requires FirstPassOK(FirstPassOf(pass, d))
    ensures FirstPassOf(pass, d) == pass.(id := if pass.id == "" then d.passID else pass.id, number := 1, direction := AToB,
                                          committedAt := if pass.committedAt == 0 then d.now else pass.committedAt)
  {
  }

  lemma PastStays(u: Unicode, policy: Policy, acts: seq<Action>, c: string, i: nat, before: CycleRow, after: CycleRow)
    requires i < |acts| - 1 && OpenedBy(u, policy, acts[..|acts| - 1], i, c, before) && OriginStays(before, after)
    ensures OpenedBy(u, policy, acts, i, c, after)
  {
    hide Run;
    assert acts[..|acts| - 1][..i] == acts[..i];
  }

  lemma CallStays(u: Unicode, policy: Policy, acts: seq<Action>, c: string, i: nat, before: CycleRow, after: CycleRow)
    requires i < |acts| - 1 && CalledBy(u, policy, acts[..|acts| - 1], i, c, before) && OriginStays(before, after)
    ensures CalledBy(u, policy, acts, i, c, after)
  {
    hide Run;
    assert acts[..|acts| - 1][..i] == acts[..i];
  }

  // ---------- the outbox ----------

  /** Step k is an attempt at the item, while it is there and unacknowledged, and is recorded. */
  ghost predicate TriedAt(u: Unicode, policy: Policy, acts: seq<Action>, k: nat, item: nat)
    requires k < |acts|
  {
    && acts[k].Attempt? && acts[k].item == item && acts[k].disk
    && item in DbAt(u, policy, acts, k).outbox && DbAt(u, policy, acts, k).outbox[item].ackedAt.None?
  }

  ghost predicate AckedAt(u: Unicode, policy: Policy, acts: seq<Action>, k: nat, item: nat)
    requires k < |acts|
  {
    acts[k].Ack? && acts[k].item == item && acts[k].disk && item in DbAt(u, policy, acts, k).outbox
  }

  /** What the first k steps leave in the columns of an item that is there: how often it was tried, when it was last tried and acknowledged,
      and the error of the last try since. */
  datatype Delivery = Delivery(attempts: nat, lastAttempt: Option<Time>, lastError: string, ackedAt: Option<Time>)

  ghost function Delivered(u: Unicode, policy: Policy, acts: seq<Action>, k: nat, item: nat): Delivery
    requires k <= |acts|
  {
    if k == 0 then Delivery(0, None, "", None)
    else
      var d, a := Delivered(u, policy, acts, k - 1, item), acts[k - 1];
      if TriedAt(u, policy, acts, k - 1, item) then d.(attempts := d.attempts + 1, lastAttempt := Some(a.now), lastError := a.error)
      else if AckedAt(u, policy, acts, k - 1, item) then d.(ackedAt := Some(a.now), lastError := "")
      else d
  }

  /** Only attempts and acknowledgements of an item change its row, and a new row is fresh and due at once. */
  lemma ItemStep(u: Unicode, policy: Policy, s: Shop, a: Action, item: nat)
    requires ShopOK(u, s)
    ensures var r := Do(u, policy, s, a).db.outbox;
            if item in s.db.outbox then
              && item in r
              && var b, c := s.db.outbox[item], r[item];
                 && c.entity == b.entity && c.payload == b.payload
                 && (if a.Attempt? && a.item == item && a.disk && b.ackedAt.None? then
                       && c.attempts == b.attempts + 1 && c.lastAttempt == Some(a.now) && c.lastError == a.error && c.ackedAt.None?
                       && c.nextAttempt == (if a.next == 0 then a.now else a.next)
                     else if a.Ack? && a.item == item && a.disk then
                       c == b.(ackedAt := Some(a.now), lastError := "")
                     else c == b)
            else item in r ==>
              && r[item].attempts == 0 && r[item].lastAttempt.None? && r[item].lastError == "" && r[item].ackedAt.None?
              && r[item].nextAttempt == r[item].payload.committedAt && r[item].entity == r[item].payload.id
  {
    hide RecordFirstPass, Ledger.CallCycle, EndSecond, Ledger.MarkCycleStatus, Consistent;
    match a
    case First(pass, d, disk) => OpeningSendsNothing(u, s.db, pass, d, disk);
    case CallNow(id, now, disk) => CallingSendsNothing(s.db, id, now, disk);
    case End(pid, disk) =>
      if pid in s.procs && s.procs[pid].Returning? {
        ShopIsConsistent(u, s);
        EndSendsOne(u, s.db, s.procs[pid].plan, s.procs[pid].d, disk, item);
      }
    case ExpireNext(pid, disk) =>
      if pid in s.procs && s.procs[pid].Expiring? && s.procs[pid].todo != [] {
        MarkingSendsNothing(s.db, s.procs[pid].todo[0].id, OrphanedFirstPass, disk);
      }
    case _ =>
  }

  lemma OpeningSendsNothing(u: Unicode, db: DB, pass: WeighPass, d: Draw, disk: bool)
    ensures RecordFirstPass(u, db, pass, d, disk).db.outbox == db.outbox
  {
    hide CycleIdentity, VehicleKey;
  }

  lemma CallingSendsNothing(db: DB, id: string, now: Time, disk: bool)
    ensures CallCycle(db, id, now, disk).db.outbox == db.outbox
  {
  }

  lemma MarkingSendsNothing(db: DB, id: string, status: CycleStatus, disk: bool)
    ensures MarkCycleStatus(db, id, status, disk).db.outbox == db.outbox
  {
  }

  lemma EndSendsOne(u: Unicode, db: DB, plan: Plan, d: Draw, disk: bool, item: nat)
    requires Consistent(u, db)
    ensures var r := EndSecond(db, plan, d, disk).db.outbox;
            if item in db.outbox then item in r && r[item] == db.outbox[item]
            else item in r ==>
              && r[item].attempts == 0 && r[item].lastAttempt.None? && r[item].lastError == "" && r[item].ackedAt.None?
              && r[item].nextAttempt == r[item].payload.committedAt && r[item].entity == r[item].payload.id
  {
    hide ValidatePair;
    if item in db.outbox { assert ItemOK(db.tickets, item, db.outbox[item]); }
  }

  /** In every reachable store the columns of every outbox item are what its deliveries made them: the number of recorded attempts, the
      time and the error of the last, and the time of the last acknowledgement. */
  lemma {:induction false} DeliveriesAreCounted(u: Unicode, policy: Policy, acts: seq<Action>, k: nat, item: nat)
    requires k <= |acts|
    ensures var db, d := DbAt(u, policy, acts, k), Delivered(u, policy, acts, k, item);
            if item in db.outbox
            then var r := db.outbox[item]; d == Delivery(r.attempts, r.lastAttempt, r.lastError, r.ackedAt)
            else d == Delivery(0, None, "", None)
  {
    hide Do, ShopOK;
    if k > 0 {
      DeliveriesAreCounted(u, policy, acts, k - 1, item);
      assert acts[..k][..k - 1] == acts[..k - 1];
      EmptyIsConsistent(u);
      EveryStateConsistent(u, policy, NEW_SHOP, acts[..k - 1]);
      ItemStep(u, policy, Run(u, policy, NEW_SHOP, acts[..k - 1]), acts[k - 1], item);
    }
  }
}
