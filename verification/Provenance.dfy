/**
 What is kept with a weighing: the stored pass carries everything its transaction knew, and the final ticket everything its two
 passes carry.
 */
module Provenance {
  import opened Domain
  import opened Pairing
  import opened Ledger
  import opened LedgerProofs
  import opened Coordination
  import opened Interleaving
  import opened EngineSpec
  import opened EngineProofs
  import opened TwoPass
  import opened TwoPassProofs

  // ---------- the final ticket ----------

  /** The graver of two modes; an unset mode counts as normal. */
  predicate Graver(m: Mode, a: Mode, b: Mode) {
    if a == Lockout || b == Lockout then m == Lockout
    else if a == Manual || b == Manual then m == Manual
    else if a == Degraded || b == Degraded then m == Degraded
    else m == Normal
  }

  lemma CombinedIsGraver(a: Mode, b: Mode)
    ensures Graver(CombineMode(a, b), a, b) && CombineMode(a, b) != NoMode
  {
  }

  /** The ticket gathers what the two passes of its cycle carry, the first before the second. */
  predicate Gathers(t: Ticket, c: WeighCycle) {
    && c.second.Some?
    && t.station == c.station && t.plate == c.plate && t.rfid == c.rfid
    && t.overrides == c.first.overrides + c.second.value.overrides
    && t.camera == c.first.camera + c.second.value.camera
    && Graver(t.mode, c.first.mode, c.second.value.mode)
  }

  /** The stored ticket also has their times. */
  predicate FullTicket(t: Ticket, c: WeighCycle) {
    && Gathers(t, c)
    && t.firstObserved == c.first.weight.observed && t.secondObserved == c.second.value.weight.observed
    && t.elapsedSeconds == (t.secondObserved - t.firstObserved) / 1_000_000_000
    && c.completedAt == Some(t.committedAt)
  }

  ghost predicate TicketsFull(db: DB) {
    forall t {:trigger db.tickets[t]} :: t in db.tickets ==>
      db.tickets[t].ticket.cycleID in db.cycles && FullTicket(db.tickets[t].ticket, db.cycles[db.tickets[t].ticket.cycleID].cycle)
  }

  predicate PlanFull(plan: Plan, d: Draw) {
    plan.Finish? ==> Gathers(plan.ticket, plan.paired) && plan.ticket.mode != NoMode && plan.ticket.committedAt == d.now
  }

  ghost predicate FullShop(s: Shop) {
    TicketsFull(s.db) && forall pid {:trigger s.procs[pid]} :: 
      pid in s.procs && s.procs[pid].Returning? ==> PlanFull(s.procs[pid].plan, s.procs[pid].d)
  }

  lemma BeginsFull(u: Unicode, policy: Policy, db: DB, pass: WeighPass, d: Draw, disk: bool)
    ensures PlanFull(BeginSecond(u, policy, db, pass, d, disk), d)
  {
    hide FindCalled, ValidatePair;
    var f := FindCalled(u, db, pass.plate, pass.rfid);
    if f.Found? { CombinedIsGraver(f.cycle.first.mode, pass.mode); }
  }

  /** Tickets stay, and what they gather is final. */
  lemma TicketsStayFull(u: Unicode, a: DB, b: DB)
    requires Consistent(u, a) && Advances(a, b) && TicketsFull(a) && b.tickets.Keys == a.tickets.Keys
    ensures TicketsFull(b)
  {
    forall t | t in b.tickets
      ensures b.tickets[t].ticket.cycleID in b.cycles && FullTicket(b.tickets[t].ticket, b.cycles[b.tickets[t].ticket.cycleID].cycle)
    {
      assert TicketOK(a.cycles, t, a.tickets[t].ticket);
      assert b.tickets[t].ticket == a.tickets[t].ticket;
      assert b.cycles[a.tickets[t].ticket.cycleID] == a.cycles[a.tickets[t].ticket.cycleID];
    }
  }

  lemma CompletionFillsTicket(u: Unicode, db: DB, plan: Plan, d: Draw, disk: bool)
    requires Consistent(u, db) && PlanOK(db, plan) && plan.Finish? && PlanFull(plan, d)
    requires CompleteCycle(db, plan.paired, plan.ticket, d.now, disk).ok
    ensures var b := CompleteCycle(db, plan.paired, plan.ticket, d.now, disk).db;
            && plan.ticket.id in b.tickets && b.tickets.Keys == db.tickets.Keys + {plan.ticket.id}
            && b.tickets[plan.ticket.id].ticket.cycleID == plan.paired.id && plan.paired.id in b.cycles
            && FullTicket(b.tickets[plan.ticket.id].ticket, b.cycles[plan.paired.id].cycle)
  {
  }

  lemma CompletionStaysFull(u: Unicode, db: DB, plan: Plan, d: Draw, disk: bool)
    requires Consistent(u, db) && PlanOK(db, plan) && plan.Finish? && PlanFull(plan, d) && TicketsFull(db)
    ensures TicketsFull(CompleteCycle(db, plan.paired, plan.ticket, d.now, disk).db)
  {
    hide CompleteCycle, FullTicket, Consistent, PlanFull, PlanOK, RowAdvances;
    CompletionKeepsPlan(u, db, plan, d, disk);
    var b := CompleteCycle(db, plan.paired, plan.ticket, d.now, disk);
    if b.ok {
      CompletionFillsTicket(u, db, plan, d, disk);
      forall t | t in b.db.tickets
        ensures b.db.tickets[t].ticket.cycleID in b.db.cycles
        ensures FullTicket(b.db.tickets[t].ticket, b.db.cycles[b.db.tickets[t].ticket.cycleID].cycle)
      {
        if t in db.tickets { OldTicket(u, db, b.db, t); }
      }
    }
  }

  lemma CompletionKeepsPlan(u: Unicode, db: DB, plan: Plan, d: Draw, disk: bool)
    requires Consistent(u, db) && PlanOK(db, plan) && plan.Finish?
    ensures var b := CompleteCycle(db, plan.paired, plan.ticket, d.now, disk);
            Consistent(u, b.db) && Advances(db, b.db) && (!b.ok ==> b.db == db)
  {
    CompletionKeeps(u, db, plan.paired, plan.ticket, d.now, disk);
  }

  lemma OldTicket(u: Unicode, a: DB, b: DB, t: string)
    requires Consistent(u, a) && Advances(a, b) && t in a.tickets
    ensures t in b.tickets && b.tickets[t].ticket == a.tickets[t].ticket
    ensures a.tickets[t].ticket.cycleID in a.cycles && a.tickets[t].ticket.cycleID in b.cycles
    ensures b.cycles[a.tickets[t].ticket.cycleID] == a.cycles[a.tickets[t].ticket.cycleID]
  {
    assert TicketOK(a.cycles, t, a.tickets[t].ticket);
  }

  /** Only a completion adds tickets. */
  lemma NoNewTickets(u: Unicode, db: DB, pass: WeighPass, d: Draw, id: string, status: CycleStatus, item: nat, error: string, at: Time,
                     disk: bool)
    ensures RecordFirstPass(u, db, pass, d, disk).db.tickets == db.tickets
    ensures CallCycle(db, id, at, disk).db.tickets == db.tickets && MarkCycleStatus(db, id, status, disk).db.tickets == db.tickets
    ensures MarkSyncAttempt(db, item, error, at, d.now, disk).db.tickets == db.tickets
    ensures Consistent(u, db) ==> AckSync(db, item, at, disk).db.tickets.Keys == db.tickets.Keys
  {
    if Consistent(u, db) && item in db.outbox { assert ItemOK(db.tickets, item, db.outbox[item]); }
  }

  lemma EndStaysFull(u: Unicode, s: Shop, pid: nat, disk: bool)
    requires ShopOK(u, s) && FullShop(s) && pid in s.procs && s.procs[pid].Returning?
    ensures TicketsFull(EndSecond(s.db, s.procs[pid].plan, s.procs[pid].d, disk).db)
  {
    hide CompleteCycle, MarkCycleStatus, TicketsFull, PlanFull, Consistent, PlanOK;
    var plan, d := s.procs[pid].plan, s.procs[pid].d;
    assert ProcOK(s.db, s.procs[pid]);
    match plan
    case Refuse(_, _) =>
    case Mark(open, status, _) =>
      NoNewTickets(u, s.db, NO_PASS, d, open.id, status, 0, "", 0, disk);
      MarkNotComplete(s.db, plan);
      MarkKeeps(u, s.db, open.id, status, disk);
      TicketsStayFull(u, s.db, MarkCycleStatus(s.db, open.id, status, disk).db);
    case Finish(paired, ticket) => CompletionStaysFull(u, s.db, plan, d, disk);
  }

  const NO_PASS := WeighPass("", "", 0, NoDirection, "", "", "", Weight(0, 0, RawRef(0, "")), NoMode, [], [], 0)

  lemma MarkNotComplete(db: DB, plan: Plan)
    requires PlanOK(db, plan) && plan.Mark?
    ensures plan.status != Complete
  {
  }

  lemma TablesStayFull(u: Unicode, policy: Policy, s: Shop, a: Action)
    requires ShopOK(u, s) && FullShop(s)
    ensures TicketsFull(Do(u, policy, s, a).db)
  {
    hide BeginSecond, EndSecond, RecordFirstPass, CallCycle, MarkCycleStatus, AckSync, MarkSyncAttempt, IsQueue, TicketsFull, ShopOK;
    if a.End? && a.pid in s.procs && s.procs[a.pid].Returning? {
      EndStaysFull(u, s, a.pid, a.disk);
    } else {
      var s' := Do(u, policy, s, a);
      ShopStep(u, policy, s, a);
      SameKeys(u, policy, s, a);
      assert Consistent(u, s.db) by { ShopIsConsistent(u, s); }
      TicketsStayFull(u, s.db, s'.db);
    }
  }

  lemma ShopIsConsistent(u: Unicode, s: Shop)
    requires ShopOK(u, s)
    ensures Consistent(u, s.db)
  {
  }

  lemma SameKeys(u: Unicode, policy: Policy, s: Shop, a: Action)
    requires ShopOK(u, s) && !(a.End? && a.pid in s.procs && s.procs[a.pid].Returning?)
    ensures Do(u, policy, s, a).db.tickets.Keys == s.db.tickets.Keys
  {
    hide BeginSecond, EndSecond, RecordFirstPass, CallCycle, MarkCycleStatus, AckSync, MarkSyncAttempt, IsQueue, Consistent;
    match a
    case First(pass, d, disk) => NoNewTickets(u, s.db, pass, d, "", Called, 0, "", 0, disk);
    case CallNow(id, now, disk) => NoNewTickets(u, s.db, NO_PASS, Draw(0, "", "", ""), id, Called, 0, "", now, disk);
    case Begin(pid, pass, d, disk) =>
    case End(pid, disk) =>
    case List(pid, at, listing) =>
    case ExpireNext(pid, disk) =>
      if pid in s.procs && s.procs[pid].Expiring? && s.procs[pid].todo != [] {
        NoNewTickets(u, s.db, NO_PASS, Draw(0, "", "", ""), s.procs[pid].todo[0].id, OrphanedFirstPass, 0, "", 0, disk);
      }
    case Ack(item, now, disk) => NoNewTickets(u, s.db, NO_PASS, Draw(0, "", "", ""), "", Called, item, "", now, disk);
    case Attempt(item, error, next, now, disk) => NoNewTickets(u, s.db, NO_PASS, Draw(now, "", "", ""), "", Called, item, error, next, disk);
  }

  lemma StepStaysFull(u: Unicode, policy: Policy, s: Shop, a: Action)
    requires ShopOK(u, s) && FullShop(s)
    ensures FullShop(Do(u, policy, s, a))
  {
    hide BeginSecond, EndSecond, RecordFirstPass, MarkCycleStatus, IsQueue, TicketsFull, ShopOK, PlanFull;
    TablesStayFull(u, policy, s, a);
    var s' := Do(u, policy, s, a);
    forall pid | pid in s'.procs && s'.procs[pid].Returning? ensures PlanFull(s'.procs[pid].plan, s'.procs[pid].d) {
      if a.Begin? && a.pid == pid { BeginsFull(u, policy, s.db, a.pass, a.d, a.disk); }
    }
  }

  /** In every state of every interleaving each ticket gathers what the two passes of its cycle carry: station, plate and tag of the
      cycle, the overrides and camera records of the first pass followed by those of the second, the graver of their modes, and
      their times. */
  lemma {:induction false} EveryTicketIsFull(u: Unicode, policy: Policy, s: Shop, acts: seq<Action>)
    requires ShopOK(u, s) && FullShop(s)
    ensures FullShop(Interleaving.Run(u, policy, s, acts))
  {
    hide FullShop, ShopOK;
    if acts != [] {
      var init := acts[..|acts| - 1];
      EveryTicketIsFull(u, policy, s, init);
      EveryStateConsistent(u, policy, s, init);
      StepStaysFull(u, policy, Interleaving.Run(u, policy, s, init), acts[|acts| - 1]);
    }
  }

  // ---------- stored passes ----------

  ghost predicate PassesStay(a: DB, b: DB) {
    forall p {:trigger b.passes[p]} {:trigger a.passes[p]} :: p in a.passes ==> p in b.passes && b.passes[p] == a.passes[p]
  }

  lemma PassesOnlyAdded(u: Unicode, db: DB, pass: WeighPass, d: Draw, id: string, status: CycleStatus, item: nat, error: string, at: Time,
                        disk: bool)
    ensures PassesStay(db, RecordFirstPass(u, db, pass, d, disk).db)
    ensures CallCycle(db, id, at, disk).db.passes == db.passes && MarkCycleStatus(db, id, status, disk).db.passes == db.passes
    ensures MarkSyncAttempt(db, item, error, at, d.now, disk).db.passes == db.passes
    ensures AckSync(db, item, at, disk).db.passes == db.passes
  {
  }

  lemma EndKeepsPasses(u: Unicode, db: DB, plan: Plan, d: Draw, disk: bool)
    ensures PassesStay(db, EndSecond(db, plan, d, disk).db)
  {
    hide ValidatePair, MarkCycleStatus;
    if plan.Mark? { PassesOnlyAdded(u, db, NO_PASS, d, plan.open.id, plan.status, 0, "", 0, disk); }
  }

  lemma StepKeepsPasses(u: Unicode, policy: Policy, s: Shop, a: Action)
    ensures PassesStay(s.db, Do(u, policy, s, a).db)
  {
    hide BeginSecond, EndSecond, RecordFirstPass, CallCycle, MarkCycleStatus, AckSync, MarkSyncAttempt, IsQueue;
    match a
    case First(pass, d, disk) => PassesOnlyAdded(u, s.db, pass, d, "", Called, 0, "", 0, disk);
    case CallNow(id, now, disk) => PassesOnlyAdded(u, s.db, NO_PASS, Draw(0, "", "", ""), id, Called, 0, "", now, disk);
    case Begin(pid, pass, d, disk) =>
    case End(pid, disk) => if pid in s.procs && s.procs[pid].Returning? { EndKeepsPasses(u, s.db, s.procs[pid].plan, s.procs[pid].d, disk); }
    case List(pid, at, listing) =>
    case ExpireNext(pid, disk) =>
      if pid in s.procs && s.procs[pid].Expiring? && s.procs[pid].todo != [] {
        PassesOnlyAdded(u, s.db, NO_PASS, Draw(0, "", "", ""), s.procs[pid].todo[0].id, OrphanedFirstPass, 0, "", 0, disk);
      }
    case Ack(item, now, disk) => PassesOnlyAdded(u, s.db, NO_PASS, Draw(0, "", "", ""), "", Called, item, "", now, disk);
    case Attempt(item, error, next, now, disk) =>
      PassesOnlyAdded(u, s.db, NO_PASS, Draw(now, "", "", ""), "", Called, item, error, next, disk);
  }

  lemma StayTrans(a: DB, b: DB, c: DB)
    requires PassesStay(a, b) && PassesStay(b, c)
    ensures PassesStay(a, c)
  {
    forall p | p in a.passes ensures p in c.passes && c.passes[p] == a.passes[p] {
      assert b.passes[p] == a.passes[p];
    }
  }

  /** A stored pass is never changed or lost, whatever anybody does. */
  lemma {:induction false} PassesAreFinal(u: Unicode, policy: Policy, s: Shop, acts: seq<Action>)
    ensures PassesStay(s.db, Interleaving.Run(u, policy, s, acts).db)
  {
    hide Do;
    if acts != [] {
      var now := Interleaving.Run(u, policy, s, acts[..|acts| - 1]);
      PassesAreFinal(u, policy, s, acts[..|acts| - 1]);
      StepKeepsPasses(u, policy, now, acts[|acts| - 1]);
      StayTrans(s.db, now.db, Do(u, policy, now, acts[|acts| - 1]).db);
    }
  }

  // ---------- from the transaction to the stored pass ----------

  /** The stored pass carries what the ticket says, for this direction, with these camera records. */
  predicate Carries(p: WeighPass, t: PassTicket, d: Direction, camera: seq<Camera>, now: Time) {
    && p.id == t.id && p.direction == d && p.number == (if d == AToB then 1 else 2)
    && p.station == t.station && p.plate == t.plate && p.rfid == t.rfid
    && p.weight == t.weight && p.mode == t.mode && p.overrides == t.overrides && p.camera == camera
    && p.committedAt == (if t.committedAt == 0 then now else t.committedAt)
  }

  lemma FirstCarries(u: Unicode, db: DB, t: PassTicket, camera: seq<Camera>, d: Draw, disk: bool)
    requires t.id != "" && RecordFirstPass(u, db, PassFrom(t, AToB, camera), d, disk).cycle.Some?
    ensures var out := RecordFirstPass(u, db, PassFrom(t, AToB, camera), d, disk).db;
            && t.id in out.passes && Carries(out.passes[t.id], t, AToB, camera, d.now)
            && out.passes[t.id].cycleID == d.cycleID && d.cycleID in out.cycles
            && var c := out.cycles[d.cycleID].cycle;
               && c.status == Queued && c.first == out.passes[t.id] && c.second.None? && c.calledAt.None?
               && c.station == t.station && c.plate == t.plate && c.rfid == t.rfid && c.queuedAt == WhenSet(c.first.committedAt, d.now)
  {
  }

  lemma SecondCarries(db: DB, plan: Plan, t: PassTicket, camera: seq<Camera>, d: Draw, disk: bool)
    requires t.id != "" && PlanOK(db, plan) && plan.Finish? && EndSecond(db, plan, d, disk).err.None?
    requires plan.paired.second == Some(SecondPassOf(PassFrom(t, BToA, camera), d).(cycleID := plan.paired.id))
    ensures var out := EndSecond(db, plan, d, disk).db;
            && t.id in out.passes && Carries(out.passes[t.id], t, BToA, camera, d.now)
            && out.passes[t.id].cycleID == plan.paired.id
  {
  }

  /** When a commit succeeds the store has a pass under the ticket's id that carries everything the ticket says and the camera
      records of its transaction, whatever other callers do meanwhile. */
  lemma CommitKeepsThePass(set_: Settings, o: Outside, b: Bridge, shop: Shop, t: PassTicket)
    requires ShopOK(set_.u, shop) && t.id != "" && Commit(set_, o, b, shop, t).ok
    ensures var db := Commit(set_, o, b, shop, t).shop.db;
            t.id in db.passes && Carries(db.passes[t.id], t, b.direction, if t.txID in b.evidence then b.evidence[t.txID] else [], o.now)
  {
    hide BeginSecond, EndSecond, Interleaving.Run, RecordFirstPass, Consistent, PassFrom, Carries;
    var camera, d := EvidenceOf(b, t.txID), DrawFor(o);
    if b.direction == AToB {
      FirstCarries(set_.u, shop.db, t, camera, d, o.disk);
    } else {
      var pass := PassFrom(t, BToA, camera);
      IDOfPass(t, BToA, camera);
      var plan := BeginSecond(set_.u, set_.policy, shop.db, pass, d, o.diskFind);
      BeginPlansSoundly(set_.u, set_.policy, shop.db, pass, d, o.diskFind);
      RunPreserves(set_.u, set_.policy, shop, o.between);
      PlanOutlivesRun(set_.u, set_.policy, shop, o.between, plan);
      var later := Interleaving.Run(set_.u, set_.policy, shop, o.between);
      EndKeeps(set_.u, later.db, plan, d, o.disk);
      SecondCarries(later.db, plan, t, camera, d, o.disk);
    }
  }

  lemma IDOfPass(t: PassTicket, d: Direction, camera: seq<Camera>)
    ensures PassFrom(t, d, camera).id == t.id
  {
  }

  // ---------- every reachable world ----------

  lemma CommitStaysFull(set_: Settings, o: Outside, b: Bridge, shop: Shop, t: PassTicket)
    requires ShopOK(set_.u, shop) && FullShop(shop)
    ensures var c := Commit(set_, o, b, shop, t); FullShop(c.shop) && PassesStay(shop.db, c.shop.db)
  {
    hide BeginSecond, EndSecond, Interleaving.Run, RecordFirstPass, Consistent, TicketsFull, PlanFull, PassFrom;
    var d, pass := DrawFor(o), PassFrom(t, b.direction, EvidenceOf(b, t.txID));
    if b.direction == AToB {
      StepStaysFull(set_.u, set_.policy, shop, First(pass, d, o.disk));
      PassesOnlyAdded(set_.u, shop.db, pass, d, "", Called, 0, "", 0, o.disk);
    } else if b.direction == BToA {
      ReturnStaysFull(set_, o, shop, pass);
    }
  }

  lemma ReturnStaysFull(set_: Settings, o: Outside, shop: Shop, pass: WeighPass)
    requires ShopOK(set_.u, shop) && FullShop(shop)
    ensures var d := DrawFor(o);
            var plan := BeginSecond(set_.u, set_.policy, shop.db, pass, d, o.diskFind);
            var later := Interleaving.Run(set_.u, set_.policy, shop, o.between);
            var out := EndSecond(later.db, plan, d, o.disk);
            FullShop(later.(db := out.db)) && PassesStay(shop.db, out.db)
  {
    hide BeginSecond, EndSecond, Interleaving.Run, Consistent, TicketsFull, PlanFull, PlanOK;
    var d := DrawFor(o);
    var plan := BeginSecond(set_.u, set_.policy, shop.db, pass, d, o.diskFind);
    BeginPlansSoundly(set_.u, set_.policy, shop.db, pass, d, o.diskFind);
    BeginsFull(set_.u, set_.policy, shop.db, pass, d, o.diskFind);
    RunPreserves(set_.u, set_.policy, shop, o.between);
    PlanOutlivesRun(set_.u, set_.policy, shop, o.between, plan);
    EveryTicketIsFull(set_.u, set_.policy, shop, o.between);
    PassesAreFinal(set_.u, set_.policy, shop, o.between);
    var later := Interleaving.Run(set_.u, set_.policy, shop, o.between);
    var pid := FreshPid(later.procs);
    var s := later.(procs := later.procs[pid := Returning(plan, d)]);
    assert later.procs == s.procs - {pid};
    assert ShopOK(set_.u, s) && FullShop(s);
    EndStaysFull(set_.u, s, pid, o.disk);
    EndKeepsPasses(set_.u, later.db, plan, d, o.disk);
    StayTrans(shop.db, later.db, EndSecond(later.db, plan, d, o.disk).db);
  }

  lemma FreshPid(procs: map<nat, Proc>) returns (pid: nat)
    ensures pid !in procs
  {
    var top := Highest(procs.Keys);
    pid := top + 1;
  }

  lemma {:induction false} Highest(s: set<nat>) returns (top: nat)
    ensures forall x :: x in s ==> x <= top
    decreases |s|
  {
    top := 0;
    if s != {} {
      var x :| x in s;
      var rest := Highest(s - {x});
      top := if x < rest then rest else x;
      forall y | y in s ensures y <= top {
        if y != x { assert y in s - {x}; }
      }
    }
  }

  lemma FeedStaysFull(set_: Settings, o: Outside, w: World, e: Event)
    requires ShopOK(set_.u, w.shop) && FullShop(w.shop)
    ensures var r := Feed(set_, o, w, e); FullShop(r.shop) && PassesStay(w.shop.db, r.shop.db)
  {
    hide Step, Commit, FullShop, ShopOK;
    var out := Step(set_.cfg, EnvFor(set_, o, w), w.eng, e);
    if out.offered.Some? { CommitStaysFull(set_, o, w.bridge, w.shop, out.offered.value); }
  }

  lemma BindKeepsShop(set_: Settings, disk: bool, w: World)
    ensures TryBind(set_, disk, w).shop == w.shop
  {
  }

  lemma FacingKeepsShop(w: World, p: Position)
    ensures Directed(Cleared(w, p), p).shop == w.shop && DoReset(w).shop == w.shop
  {
  }

  lemma ShopOf(set_: Settings, w: World)
    requires WorldInv(set_, w)
    ensures ShopOK(set_.u, w.shop)
  {
  }

  lemma ActStaysFull(set_: Settings, o: Outside, w: World, e: WorldEvent)
    requires WorldInv(set_, w) && FullShop(w.shop)
    ensures var r := Act(set_, o, w, e); FullShop(r.shop) && PassesStay(w.shop.db, r.shop.db)
  {
    hide Feed, TryBind, DoReset, Directed, Cleared, Do, WorldInv, FullShop, ShopOK;
    ShopOf(set_, w);
    match e
    case Sensors(p) =>
      var w1 := Directed(Cleared(w, p), p);
      var logical := Logical(w1, p);
      FacingKeepsShop(w, p);
      FeedStaysFull(set_, o, w1, SeePosition(logical));
      BindKeepsShop(set_, o.diskFind, Feed(set_, o, w1, SeePosition(logical)));
    case Device(d) =>
      FeedStaysFull(set_, o, w, d);
      BindKeepsShop(set_, o.diskFind, Feed(set_, o, w, d));
    case CameraShot(c) =>
    case OperatorReset => FacingKeepsShop(w, NOWHERE);
    case Elsewhere(a) =>
      StepStaysFull(set_.u, set_.policy, w.shop, a);
      StepKeepsPasses(set_.u, set_.policy, w.shop, a);
  }

  const NOWHERE := Position(false, false, false, false, false, false, false, false, false, 0)

  lemma NewShopIsFull()
    ensures FullShop(NEW_SHOP)
  {
  }

  /** In every reachable world every ticket is full, and no step ever changes a stored pass. */
  lemma {:induction false} EveryWorldIsFull(set_: Settings, script: seq<Cue>, k: nat)
    requires set_.cfg.confirmations > 0 && k <= |script|
    ensures var r := TwoPass.Play(set_, NEW_WORLD, script);
            FullShop(r.shop) && PassesStay(TwoPass.Play(set_, NEW_WORLD, script[..k]).shop.db, r.shop.db)
  {
    hide Act, FullShop, WorldInv;
    var n := |script|;
    NewShopIsFull();
    if k < n {
      var init, last := script[..n - 1], script[n - 1];
      EveryWorldIsFull(set_, init, k);
      assert init[..k] == script[..k];
      var w := TwoPass.Play(set_, NEW_WORLD, init);
      NewWorldInv(set_);
      EveryWorldInv(set_, NEW_WORLD, init);
      ActStaysFull(set_, last.o, w, last.e);
      StayTrans(TwoPass.Play(set_, NEW_WORLD, script[..k]).shop.db, w.shop.db, Act(set_, last.o, w, last.e).shop.db);
    } else {
      assert script[..k] == script;
      if n > 0 {
        EveryWorldIsFull(set_, script[..n - 1], 0);
        NewWorldInv(set_);
        EveryWorldInv(set_, NEW_WORLD, script[..n - 1]);
        ActStaysFull(set_, script[n - 1].o, TwoPass.Play(set_, NEW_WORLD, script[..n - 1]), script[n - 1].e);
      }
    }
  }

  // ---------- from the engine to the store ----------

  /** The ticket tells what the transaction knows when the frame is accepted. */
  lemma TicketTells(cfg: Config, env: Env, s: Eng, a: Audited)
    requires OnScale(cfg, env, s, a).offered.Some?
    ensures s.tx.Some?
    ensures var t, k := s.tx.value, OnScale(cfg, env, s, a).offered.value;
            && k.station == cfg.station && k.txID == t.id && k.id == "ticket-" + env.suffix
            && k.plate == t.plate.plate && k.rfid == t.tag.tag && k.mode == t.mode && k.overrides == t.overrides
            && k.weight.kg == a.reading.kg && k.weight.observed == a.reading.observed && k.weight.rawRef == a.rawRef
            && k.committedAt == env.now
  {
    hide EnterWeighing;
    var f := SyncFaults(Receive(s, a).(faults := Receive(s, a).faults - {Scale}));
    EnteringTells(cfg, f);
  }

  /** What the ticket will tell is what it was, or the transaction is locked out. */
  predicate Tells(s: Eng, r: Eng) {
    && s.tx.Some? && r.tx.Some?
    && (r.tx.value.state == FaultLockout || (
         var t, u := s.tx.value, r.tx.value;
         u.id == t.id && u.plate == t.plate && u.tag == t.tag && u.mode == t.mode && u.overrides == t.overrides))
  }

  lemma TryTells(cfg: Config, s: Eng)
    requires s.tx.Some?
    ensures Tells(s, TryAuthorize(cfg, s)) && Tells(s, TryReady(s))
    ensures s.tx.value.state == FaultLockout ==> TryReady(s) == s
  {
  }

  lemma EnteringTells(cfg: Config, f: Eng)
    requires f.tx.Some?
    ensures var t, r := f.tx.value, EnterWeighing(cfg, f).tx.value;
            r.state == Weighing ==>
              r.id == t.id && r.plate == t.plate && r.tag == t.tag && r.mode == t.mode && r.overrides == t.overrides
  {
    hide TryAuthorize, TryReady;
    TryTells(cfg, f);
    TryTells(cfg, Approaching(cfg, f));
  }

  /** When an accepted frame releases the truck, the store has a pass under its ticket id with the station, the plate and tag, the
      mode and overrides of the transaction, the weight of that frame, and the camera records of that transaction. */
  lemma ReleaseKeepsTheTransaction(set_: Settings, o: Outside, w: World, a: Audited)
    requires WorldInv(set_, w)
    requires var out := Step(set_.cfg, EnvFor(set_, o, w), w.eng, SeeScale(a)); out.offered.Some? && out.ok
    ensures w.eng.tx.Some?
    ensures var t, db := w.eng.tx.value, Act(set_, o, w, Device(SeeScale(a))).shop.db;
            var id := "ticket-" + o.suffix;
            && id in db.passes
            && var p := db.passes[id];
               && p.id == id && p.direction == w.direction && p.station == set_.cfg.station
               && p.plate == t.plate.plate && p.rfid == t.tag.tag && p.mode == t.mode && p.overrides == t.overrides
               && p.weight == Weight(a.reading.kg, a.reading.observed, a.rawRef) && p.committedAt == o.now
               && p.camera == if t.id in w.bridge.evidence then w.bridge.evidence[t.id] else []
  {
    hide OnScale, Commit, Inv, ShopOK;
    var env := EnvFor(set_, o, w);
    TicketTells(set_.cfg, env, w.eng, a);
    ShopOf(set_, w);
    var k := OnScale(set_.cfg, env, w.eng, a).offered.value;
    assert Commit(set_, o, w.bridge, w.shop, k).ok by { OfferIsCommitted(set_, o, w, a); }
    CommitKeepsThePass(set_, o, w.bridge, w.shop, k);
  }

  lemma OfferIsCommitted(set_: Settings, o: Outside, w: World, a: Audited)
    requires var out := OnScale(set_.cfg, EnvFor(set_, o, w), w.eng, a); out.offered.Some? && out.ok
    ensures Commit(set_, o, w.bridge, w.shop, OnScale(set_.cfg, EnvFor(set_, o, w), w.eng, a).offered.value).ok
  {
    hide EnterWeighing, Commit;
  }
}
