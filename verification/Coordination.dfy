/**
 The coordinator (internal/cycle/coordinator.go) as the sequence of store transactions each call makes,
 so that other callers' transactions may fall between them.
 */
module Coordination {
  import opened Domain
  import opened Pairing
  import opened Ledger
  import opened LedgerProofs

  /** The clock reading and the fresh identifiers one call draws. */
  datatype Draw = Draw(now: Time, passID: string, cycleID: string, ticketID: string)

  datatype Refusal = StoreFailed | InvalidPass | NoCalledCycle | AmbiguousCall | InvalidPair | WindowOver

  // ---------- first pass: one transaction ----------

  function FirstPassOf(pass: WeighPass, d: Draw): WeighPass {
    pass.(id := OrElse(pass.id, d.passID), number := 1,
          direction := if pass.direction == NoDirection then AToB else pass.direction,
          committedAt := WhenSet(pass.committedAt, d.now))
  }

  function NewCycle(p: WeighPass, d: Draw): WeighCycle {
    WeighCycle(d.cycleID, p.station, p.plate, p.rfid, Queued, p.(cycleID := d.cycleID), None,
               p.committedAt, None, None, 0, 0, 0, 0)
  }

  datatype FirstOut = FirstOut(db: DB, cycle: Option<WeighCycle>)

  function RecordFirstPass(u: Unicode, db: DB, pass: WeighPass, d: Draw, disk: bool): FirstOut {
    var p := FirstPassOf(pass, d);
    if !FirstPassOK(p) then FirstOut(db, None)
    else
      var c := NewCycle(p, d);
      var done := OpenCycle(u, db, c, d.now, disk);
      FirstOut(done.db, if done.ok then Some(c) else None)
  }

  /** A first pass opens a cycle exactly when it is on the way in, of a readable plate, with a raw record, a positive weight and a time, and
      its identifiers are given and not taken; otherwise nothing changes. */
  lemma FirstPassRecordedExactly(u: Unicode, db: DB, pass: WeighPass, d: Draw, disk: bool)
    requires Consistent(u, db)
    ensures var out, id := RecordFirstPass(u, db, pass, d, disk), if pass.id == "" then d.passID else pass.id;
            && (out.cycle.Some? <==>
                 && disk && pass.direction != BToA && CycleIdentity(pass.plate) != ""
                 && pass.weight.rawRef.seq_ != 0 && pass.weight.rawRef.hash != "" && pass.weight.kg > 0 && pass.weight.observed != 0
                 && id != "" && id !in db.passes && d.cycleID != "" && d.cycleID !in db.cycles)
            && (out.cycle.None? ==> out.db == db)
  {
    hide CycleIdentity, VehicleKey, Consistent;
    var id := if pass.id == "" then d.passID else pass.id;
    if id !in db.passes && d.cycleID !in db.cycles { FreshKeys(u, db, id, d.cycleID); }
  }

  /** What a first pass opens: one more pass with the weight, the mode, the overrides and the camera records given, and one more cycle,
      queued, with that pass alone. */
  lemma FirstPassOpens(u: Unicode, db: DB, pass: WeighPass, d: Draw, disk: bool)
    ensures var out, id := RecordFirstPass(u, db, pass, d, disk), if pass.id == "" then d.passID else pass.id;
            out.cycle.Some? ==>
              && out.db.tickets == db.tickets && out.db.outbox == db.outbox
              && id in out.db.passes && out.db.passes == db.passes[id := out.db.passes[id]]
              && d.cycleID in out.db.cycles && out.db.cycles == db.cycles[d.cycleID := out.db.cycles[d.cycleID]]
              && var r := out.db.cycles[d.cycleID];
                 && r.status == Queued && r.cycle.status == Queued && r.cycle.first == out.db.passes[id] && r.cycle.second.None?
                 && r.plateKey == VehicleKey(u, pass.plate) && r.firstPassID == id
                 && r.cycle.first.weight == pass.weight && r.cycle.first.overrides == pass.overrides && r.cycle.first.camera == pass.camera
                 && r.cycle.first.mode == pass.mode && r.cycle.first.number == 1 && r.cycle.first.direction == AToB
  {
    hide CycleIdentity, VehicleKey;
  }

  /** In a consistent store an unused pass and cycle identifier collide with no other unique column. */
  lemma FreshKeys(u: Unicode, db: DB, id: string, cycleID: string)
    requires Consistent(u, db) && id !in db.passes && cycleID !in db.cycles
    ensures forall k {:trigger db.passes[k]} :: k in db.passes ==> db.passes[k].cycleID != cycleID
    ensures forall k {:trigger db.cycles[k]} :: k in db.cycles ==> db.cycles[k].firstPassID != id
  {
    forall k | k in db.passes ensures db.passes[k].cycleID != cycleID { assert PassOK(db.cycles, k, db.passes[k]); }
    forall k | k in db.cycles ensures db.cycles[k].firstPassID != id { assert RowOK(u, db.passes, k, db.cycles[k]); }
  }

  // ---------- second pass: a search, then one more transaction ----------

  datatype Plan =
    | Refuse(err: Refusal, cycle: Option<WeighCycle>)
    | Mark(open: WeighCycle, status: CycleStatus, err: Refusal)
    | Finish(paired: WeighCycle, ticket: Ticket)

  function SecondPassOf(pass: WeighPass, d: Draw): WeighPass {
    pass.(id := OrElse(pass.id, d.passID), number := 2, committedAt := WhenSet(pass.committedAt, d.now))
  }

  /** The plan for the cycle that was found. */
  function PlanFor(policy: Policy, open: WeighCycle, pass: WeighPass, d: Draw): Plan {
    var p := SecondPassOf(pass, d).(cycleID := open.id);
    var v := ValidatePair(open.first, p, policy);
    if !v.valid then
      if v.status == PairTimeInvalid && policy.maxElapsed > 0 && v.elapsed > policy.maxElapsed
      then Mark(open, PairTimeInvalid, WindowOver)
      else if v.status != WrongTruck then Mark(open, Called, InvalidPair)
      else Refuse(InvalidPair, Some(open))
    else
      Finish(PairedCycle(open, p, v, d.now), TicketDraft(open, p, d))
  }

  function TicketDraft(open: WeighCycle, p: WeighPass, d: Draw): Ticket {
    Ticket(d.ticketID, open.station, open.id, open.id, open.plate, open.rfid,
           "", "", 0, 0, 0, 0, 0, RawRef(0, ""), RawRef(0, ""), 0,
           open.first.camera + p.camera, CombineMode(open.first.mode, p.mode),
           open.first.overrides + p.overrides, d.now)
  }

  ghost function BeginSecond(u: Unicode, policy: Policy, db: DB, pass: WeighPass, d: Draw, disk: bool): Plan {
    if pass.direction != BToA then Refuse(InvalidPair, None)
    else if !disk then Refuse(StoreFailed, None)
    else match FindCalled(u, db, pass.plate, pass.rfid)
      case NotFound => Refuse(NoCalledCycle, None)
      case Ambiguous => Refuse(AmbiguousCall, None)
      case Found(open) => PlanFor(policy, open, pass, d)
  }

  datatype SecondOut = SecondOut(db: DB, cycle: Option<WeighCycle>, ticket: Option<Ticket>, err: Option<Refusal>)

  /** The ticket as the coordinator hands it back: its own draft with the paired fields filled in. */
  function TicketBack(t: Ticket, c: WeighCycle): Ticket
    requires c.second.Some?
  {
    var s := c.second.value;
    t.(firstPassID := c.first.id, secondPassID := s.id, gross := c.gross, tare := c.tare, net := c.net,
       firstObserved := c.first.weight.observed, secondObserved := s.weight.observed,
       firstRawRef := c.first.weight.rawRef, secondRawRef := s.weight.rawRef,
       elapsedSeconds := c.elapsed / NANOS_PER_SECOND)
  }

  function EndSecond(db: DB, plan: Plan, d: Draw, disk: bool): SecondOut {
    match plan
    case Refuse(err, cycle) => SecondOut(db, cycle, None, Some(err))
    case Mark(open, status, err) => SecondOut(MarkCycleStatus(db, open.id, status, disk).db, Some(open), None, Some(err))
    case Finish(paired, ticket) =>
      var done := CompleteCycle(db, paired, ticket, d.now, disk);
      if !done.ok || paired.second.None? then SecondOut(done.db, Some(paired), None, Some(StoreFailed))
      else SecondOut(done.db, Some(paired), Some(TicketBack(ticket, paired)), None)
  }

  /** What a plan still relies on when its second transaction runs, whatever ran in between. */
  ghost predicate PlanOK(db: DB, plan: Plan) {
    match plan
    case Refuse(_, _) => true
    case Mark(open, status, _) => status != Complete
    case Finish(paired, ticket) =>
      && Known(db, paired) && paired.status == Complete
      && ticket.txID == paired.id && ticket.cycleID == paired.id
      && paired.second.Some? && paired.second.value.cycleID == paired.id && paired.second.value.number == 2
      && paired.completedAt == Some(ticket.committedAt)
      && var v := ValidatePair(paired.first, paired.second.value, NO_LIMITS);
         v.valid && paired == PairedCycle(paired, paired.second.value, v, ticket.committedAt)
  }

  lemma BeginPlansSoundly(u: Unicode, policy: Policy, db: DB, pass: WeighPass, d: Draw, disk: bool)
    requires Consistent(u, db)
    ensures var plan := BeginSecond(u, policy, db, pass, d, disk);
            && PlanOK(db, plan)
            && (plan.Finish? ==> plan.ticket.committedAt == d.now && plan.ticket.id == d.ticketID
                                 && plan.paired.second == Some(SecondPassOf(pass, d).(cycleID := plan.paired.id)))
            && (plan.Mark? ==> plan.open.status == Called)
            && (plan.Refuse? && plan.cycle.Some? ==> plan.cycle.value.status == Called)
  {
    FoundIsCalled(u, db, pass.plate, pass.rfid);
    var f := FindCalled(u, db, pass.plate, pass.rfid);
    if f.Found? {
      AcceptedPairIsIntrinsicallyValid(f.cycle.first, SecondPassOf(pass, d).(cycleID := f.cycle.id), policy);
    }
  }

  /** The return is weighed when the window of its first pass is over. */
  predicate Late(policy: Policy, first: WeighPass, pass: WeighPass) {
    policy.maxElapsed > 0 && pass.weight.observed - first.weight.observed > policy.maxElapsed
  }

  /** How a return is answered once its called cycle is found: another truck is refused, a late one closes the cycle, a pair
      that is sound and within all limits completes it, and everything else leaves it called. */
  lemma ReturnIsAnsweredExactly(u: Unicode, policy: Policy, db: DB, pass: WeighPass, d: Draw, open: WeighCycle)
    requires Consistent(u, db) && pass.direction == BToA && FindCalled(u, db, pass.plate, pass.rfid) == Found(open)
    ensures var plan := BeginSecond(u, policy, db, pass, d, true);
            var same, referenced := SameTruck(open.first, pass), pass.weight.rawRef.Present();
            && (plan == Refuse(InvalidPair, Some(open)) <==> !same)
            && (plan == Mark(open, PairTimeInvalid, WindowOver) <==> same && referenced && Late(policy, open.first, pass))
            && (plan.Finish? <==>
                 && same && referenced && MeetsLimits(open.first, pass, policy)
                 && open.first.weight.observed < pass.weight.observed && pass.weight.kg < open.first.weight.kg)
            && (plan == Refuse(InvalidPair, Some(open)) || plan == Mark(open, PairTimeInvalid, WindowOver) || plan.Finish?
                || plan == Mark(open, Called, InvalidPair))
  {
    FoundIsCalled(u, db, pass.plate, pass.rfid);
    assert RowOK(u, db.passes, open.id, db.cycles[open.id]);
    VerdictExactly(open.first, SecondPassOf(pass, d).(cycleID := open.id), policy);
    PairAcceptance(open.first, SecondPassOf(pass, d).(cycleID := open.id), policy);
  }

  /** A return that is the right truck and too late is told so, and, undisturbed, takes its cycle out of the queue for good reason:
      the row becomes PAIR_TIME_INVALID and nothing else changes. */
  lemma LateReturnClosesItsCycle(u: Unicode, policy: Policy, db: DB, pass: WeighPass, d: Draw, open: WeighCycle, disk: bool)
    requires Consistent(u, db) && pass.direction == BToA && FindCalled(u, db, pass.plate, pass.rfid) == Found(open)
    requires SameTruck(open.first, pass) && pass.weight.rawRef.Present() && Late(policy, open.first, pass)
    ensures var out := EndSecond(db, BeginSecond(u, policy, db, pass, d, true), d, disk);
            && out.err == Some(WindowOver) && out.cycle == Some(open) && out.ticket.None?
            && out.db.passes == db.passes && out.db.tickets == db.tickets && out.db.outbox == db.outbox
            && out.db.cycles.Keys == db.cycles.Keys && open.id in db.cycles
            && (forall c :: c in db.cycles && c != open.id ==> out.db.cycles[c] == db.cycles[c])
            && out.db.cycles[open.id].cycle == (if disk then open.(status := PairTimeInvalid) else open)
            && out.db.cycles[open.id].status == if disk then PairTimeInvalid else Called
  {
    hide BeginSecond;
    ReturnIsAnsweredExactly(u, policy, db, pass, d, open);
    FoundIsCalled(u, db, pass.plate, pass.rfid);
    assert RowOK(u, db.passes, open.id, db.cycles[open.id]);
  }

  /** The second transaction keeps the store consistent in any state the plan still fits, and reports success only for a
      cycle that was durably called and is complete now. */
  lemma EndKeeps(u: Unicode, db: DB, plan: Plan, d: Draw, disk: bool)
    requires Consistent(u, db) && PlanOK(db, plan)
    ensures var out := EndSecond(db, plan, d, disk);
            && Consistent(u, out.db) && Advances(db, out.db)
            && (out.err.None? ==> plan.Finish? && CompletedBy(db, out.db, plan.paired, plan.ticket.id))
  {
    match plan
    case Refuse(_, _) =>
    case Mark(open, status, _) => MarkKeeps(u, db, open.id, status, disk);
    case Finish(paired, ticket) => CompletionKeeps(u, db, paired, ticket, d.now, disk);
  }

  /** Exactly when the store refuses the completion of a return that was planned: the disk fails, the cycle is no longer
      called, or an identifier is missing or taken. */
  lemma CompletionRefusedExactly(u: Unicode, db: DB, plan: Plan, d: Draw, disk: bool)
    requires Consistent(u, db) && PlanOK(db, plan) && plan.Finish?
    ensures var second := plan.paired.second.value;
            !CompleteCycle(db, plan.paired, plan.ticket, d.now, disk).ok
            <==> || !disk || db.cycles[plan.paired.id].status != Called
                 || plan.ticket.id == "" || plan.ticket.id in db.tickets
                 || second.id == "" || second.id in db.passes
  {
    var c := plan.paired;
    var second := c.second.value;
    assert RowOK(u, db.passes, c.id, db.cycles[c.id]);
    assert second.(cycleID := c.id, number := 2) == second;
    if db.cycles[c.id].status == Called {
      NoSecondPassYet(u, db, c.id);
      NoTicketYet(u, db, c.id);
    }
    forall i: nat | i in db.outbox ensures db.outbox[i].entity in db.tickets {
      assert ItemOK(db.tickets, i, db.outbox[i]);
    }
  }

  lemma NoSecondPassYet(u: Unicode, db: DB, c: string)
    requires Consistent(u, db) && c in db.cycles && db.cycles[c].status != Complete
    ensures forall k :: k in db.passes && db.passes[k].cycleID == c ==> db.passes[k].number == 1
  {
    assert RowOK(u, db.passes, c, db.cycles[c]);
    forall k | k in db.passes && db.passes[k].cycleID == c ensures db.passes[k].number == 1 {
      assert PassOK(db.cycles, k, db.passes[k]);
    }
  }

  lemma NoTicketYet(u: Unicode, db: DB, c: string)
    requires Consistent(u, db) && c in db.cycles && db.cycles[c].status != Complete
    ensures forall t :: t in db.tickets ==> db.tickets[t].ticket.cycleID != c && db.tickets[t].ticket.txID != c
  {
    forall t | t in db.tickets ensures db.tickets[t].ticket.cycleID != c && db.tickets[t].ticket.txID != c {
      assert TicketOK(db.cycles, t, db.tickets[t].ticket);
    }
  }

  /** The cycle and the ticket handed back are the ones stored. */
  lemma EndReturnsWhatIsStored(db: DB, plan: Plan, d: Draw, disk: bool)
    requires PlanOK(db, plan) && EndSecond(db, plan, d, disk).err.None?
    requires plan.Finish? && plan.ticket.committedAt == d.now
    ensures var out := EndSecond(db, plan, d, disk);
            && out.cycle == Some(plan.paired) && out.ticket.Some?
            && plan.paired.id in out.db.cycles && out.db.cycles[plan.paired.id].cycle == plan.paired
            && plan.ticket.id in out.db.tickets
            && Same(out.db.tickets[plan.ticket.id].ticket, out.ticket.value)
  {
    var c := plan.paired;
    var v := ValidatePair(c.first, c.second.value, NO_LIMITS);
    assert c.second.value.(cycleID := c.id, number := 2) == c.second.value;
    assert CompletionTime(c, d.now) == d.now;
    assert PairedCycle(c, c.second.value, v, d.now) == c;
  }

  /** Equal up to the fallback for an unset mode, tag, plate, station or override list. */
  predicate Same(stored: Ticket, back: Ticket) {
    && stored.id == back.id && stored.txID == back.txID && stored.cycleID == back.cycleID
    && stored.firstPassID == back.firstPassID && stored.secondPassID == back.secondPassID
    && stored.gross == back.gross && stored.tare == back.tare && stored.net == back.net
    && stored.firstRawRef == back.firstRawRef && stored.secondRawRef == back.secondRawRef
    && stored.firstObserved == back.firstObserved && stored.secondObserved == back.secondObserved
    && stored.elapsedSeconds == back.elapsedSeconds && stored.camera == back.camera && stored.committedAt == back.committedAt
  }

  lemma PlanStays(a: DB, b: DB, plan: Plan)
    requires PlanOK(a, plan) && Advances(a, b)
    ensures PlanOK(b, plan)
  {
    if plan.Finish? { KnownStays(a, b, plan.paired); }
  }

  // ---------- expiry: a listing, then one transaction a cycle ----------

  predicate Overdue(policy: Policy, c: WeighCycle, at: Time) {
    c.first.weight.observed != 0 && at - c.first.weight.observed > policy.maxElapsed
  }

  datatype Expired = Expired(db: DB, count: nat, ok: bool)

  /** The counting loop over a listing, one transaction a cycle, until a mark fails; `disk` is the fate of each mark. */
  function Expire(db: DB, policy: Policy, queue: seq<WeighCycle>, at: Time, disk: string -> bool): Expired {
    if queue == [] then Expired(db, 0, true)
    else
      var e := Expire(db, policy, queue[..|queue| - 1], at, disk);
      var c := queue[|queue| - 1];
      if !e.ok || !Overdue(policy, c, at) then e
      else
        var done := MarkCycleStatus(e.db, c.id, OrphanedFirstPass, disk(c.id));
        Expired(done.db, if done.ok then e.count + 1 else e.count, done.ok)
  }

  /** The whole call: no window, no expiry; `listed` is the fate of the listing; a zero time means now. */
  function ExpireAll(db: DB, policy: Policy, queue: seq<WeighCycle>, at: Time, now: Time, listed: bool, disk: string -> bool): Expired {
    if policy.maxElapsed <= 0 then Expired(db, 0, true)
    else if !listed then Expired(db, 0, false)
    else Expire(db, policy, queue, WhenSet(at, now), disk)
  }

  /** The cycles an expiry at `at` is for. */
  ghost function OverdueIDs(db: DB, policy: Policy, at: Time): set<string> {
    set c | c in QueueIDs(db) && Overdue(policy, db.cycles[c].cycle, at)
  }

  function Orphan(r: CycleRow): CycleRow {
    r.(status := OrphanedFirstPass, cycle := r.cycle.(status := OrphanedFirstPass))
  }

  ghost function OrphanAll(db: DB, ids: set<string>): DB {
    db.(cycles := map c | c in db.cycles :: if c in ids then Orphan(db.cycles[c]) else db.cycles[c])
  }

  ghost function IDsOf(q: seq<WeighCycle>, policy: Policy, at: Time): set<string> {
    set i | 0 <= i < |q| && Overdue(policy, q[i], at) :: q[i].id
  }

  lemma IDsOfLast(q: seq<WeighCycle>, policy: Policy, at: Time)
    requires q != []
    ensures var n := |q| - 1;
            IDsOf(q, policy, at) == IDsOf(q[..n], policy, at) + if Overdue(policy, q[n], at) then {q[n].id} else {}
  {
    var n := |q| - 1;
    forall x | x in IDsOf(q, policy, at) ensures x in IDsOf(q[..n], policy, at) || (Overdue(policy, q[n], at) && x == q[n].id) {
      var i :| 0 <= i < |q| && Overdue(policy, q[i], at) && q[i].id == x;
      if i < n { assert q[..n][i] == q[i]; }
    }
    forall x | x in IDsOf(q[..n], policy, at) ensures x in IDsOf(q, policy, at) {
      var i :| 0 <= i < n && Overdue(policy, q[..n][i], at) && q[..n][i].id == x;
      assert q[i] == q[..n][i];
    }
  }

  lemma OrphanOneMore(u: Unicode, db: DB, ids: set<string>, c: string)
    requires Consistent(u, db) && c in QueueIDs(db) && c !in ids
    ensures MarkCycleStatus(OrphanAll(db, ids), c, OrphanedFirstPass, true) == Done(OrphanAll(db, ids + {c}), true)
  {
    assert RowOK(u, db.passes, c, db.cycles[c]);
    var d := OrphanAll(db, ids);
    assert d.cycles[c] == db.cycles[c];
    var r := UpdateCycle(d, db.cycles[c].cycle.(status := OrphanedFirstPass)).cycles[c];
    assert r == Orphan(db.cycles[c]);
    assert d.cycles[c := r] == OrphanAll(db, ids + {c}).cycles;
  }

  /** The place in a listing of the first cycle to be marked whose mark fails, or its length. */
  function FirstFailure(q: seq<WeighCycle>, policy: Policy, at: Time, disk: string -> bool): (k: nat)
    ensures k <= |q|
    ensures k < |q| ==> Overdue(policy, q[k], at) && !disk(q[k].id)
    ensures forall i :: 0 <= i < k && Overdue(policy, q[i], at) ==> disk(q[i].id)
  {
    if q == [] then 0
    else
      var n := |q| - 1;
      var k := FirstFailure(q[..n], policy, at, disk);
      if k == n && (!Overdue(policy, q[n], at) || disk(q[n].id)) then n + 1 else k
  }

  lemma FailedMarkChangesNothing(db: DB, id: string, status: CycleStatus)
    ensures MarkCycleStatus(db, id, status, false) == Done(db, false)
  {
  }

  lemma {:induction false} ExpirePrefix(u: Unicode, db: DB, policy: Policy, q: seq<WeighCycle>, at: Time, disk: string -> bool)
    requires Consistent(u, db)
    requires forall i :: 0 <= i < |q| ==> q[i].id in QueueIDs(db)
    requires forall i, j :: 0 <= i < j < |q| ==> q[i].id != q[j].id
    ensures var k := FirstFailure(q, policy, at, disk);
            Expire(db, policy, q, at, disk) == Expired(OrphanAll(db, IDsOf(q[..k], policy, at)), |IDsOf(q[..k], policy, at)|, k == |q|)
  {
    hide MarkCycleStatus, QueueIDs, OrphanAll, IDsOf, Consistent;
    if q == [] {
      NothingOrphaned(db, policy, at);
    } else {
      var n := |q| - 1;
      var init, c := q[..n], q[n];
      ExpirePrefix(u, db, policy, init, at, disk);
      var k := FirstFailure(init, policy, at, disk);
      assert init[..k] == q[..k] && q[..n + 1] == q;
      IDsOfLast(q, policy, at);
      if k == n && Overdue(policy, c, at) {
        NotAmong(init, policy, at, c.id);
        OrphanOneMore(u, db, IDsOf(init, policy, at), c.id);
        FailedMarkChangesNothing(OrphanAll(db, IDsOf(init, policy, at)), c.id, OrphanedFirstPass);
        assert init[..n] == init;
      } else if k == n {
        assert IDsOf(init, policy, at) + {} == IDsOf(init, policy, at);
      }
    }
  }

  lemma NothingOrphaned(db: DB, policy: Policy, at: Time)
    ensures OrphanAll(db, IDsOf([], policy, at)) == db && IDsOf([], policy, at) == {}
  {
    assert OrphanAll(db, {}).cycles == db.cycles;
  }

  lemma NotAmong(q: seq<WeighCycle>, policy: Policy, at: Time, id: string)
    requires forall i :: 0 <= i < |q| ==> q[i].id != id
    ensures id !in IDsOf(q, policy, at)
  {
  }

  /** An expiry that nothing comes between, over the queue in whatever order: it orphans exactly the queued and called cycles
      past the window that come before the first failing mark, counts them, fails exactly if there is one, and changes nothing
      else; without a failure those are all the overdue ones. */
  lemma ExpiryIsExact(u: Unicode, db: DB, policy: Policy, q: seq<WeighCycle>, at: Time, disk: string -> bool)
    requires Consistent(u, db) && IsQueue(db, q)
    ensures var k := FirstFailure(q, policy, at, disk);
            var done := IDsOf(q[..k], policy, at);
            && Expire(db, policy, q, at, disk) == Expired(OrphanAll(db, done), |done|, k == |q|)
            && done <= OverdueIDs(db, policy, at) && (k == |q| ==> done == OverdueIDs(db, policy, at))
            && (k == |q| <==> forall c :: c in OverdueIDs(db, policy, at) ==> disk(c))
  {
    hide MarkCycleStatus, Consistent, Expire;
    ExpirePrefix(u, db, policy, q, at, disk);
    ListedAreOverdue(db, policy, q, at);
    var k := FirstFailure(q, policy, at, disk);
    assert q[..|q|] == q;
    forall x | x in IDsOf(q[..k], policy, at) ensures x in IDsOf(q, policy, at) {
      var i :| 0 <= i < k && Overdue(policy, q[..k][i], at) && q[..k][i].id == x;
      assert q[i] == q[..k][i];
    }
    if k < |q| { assert q[k].id in IDsOf(q, policy, at); }
  }

  lemma ListedAreOverdue(db: DB, policy: Policy, q: seq<WeighCycle>, at: Time)
    requires IsQueue(db, q)
    ensures IDsOf(q, policy, at) == OverdueIDs(db, policy, at)
  {
    forall c | c in OverdueIDs(db, policy, at) ensures c in IDsOf(q, policy, at) {
      var i :| 0 <= i < |q| && q[i].id == c;
    }
  }

  /** No pass weighed at or after the expiry time could have completed an orphaned cycle. */
  lemma ExpiryIsSound(db: DB, policy: Policy, at: Time, c: string, pass: WeighPass)
    requires policy.maxElapsed > 0 && c in OverdueIDs(db, policy, at) && pass.weight.observed >= at
    ensures !ValidatePair(db.cycles[c].cycle.first, pass, policy).valid
  {
    LatePairNeverValid(db.cycles[c].cycle.first, pass, policy, at);
  }
}
