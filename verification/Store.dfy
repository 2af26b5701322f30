/**
 The store and the coordinator as objects: tables are fields, a transaction works on its own copy and replaces
 the tables only when it commits.
 */
module Stores {
  import opened Domain
  import opened Pairing
  import opened Ledger
  import opened Queues

  /** Unacknowledged outbox ids below `n`, in id order. */
  function PendingBelow(outbox: map<nat, SyncRow>, n: nat): seq<nat> {
    if n == 0 then []
    else PendingBelow(outbox, n - 1) + if n - 1 in outbox && outbox[n - 1].ackedAt.None? then [n - 1] else []
  }

  function BatchLimit(limit: int): nat {
    if limit <= 0 || limit > 1000 then 100 else limit
  }

  function Take<T>(s: seq<T>, n: nat): seq<T> {
    if |s| <= n then s else s[..n]
  }

  /** A batch is the beginning of the list: as much as asked for, or 100 items for a limit that is none or above 1000. */
  lemma BatchIsTheFirst(s: seq<nat>, limit: int)
    ensures var b := Take(s, BatchLimit(limit));
            && b <= s
            && (1 <= limit <= 1000 ==> |b| == if limit <= |s| then limit else |s|)
            && (limit < 1 || limit > 1000 ==> |b| == if 100 <= |s| then 100 else |s|)
  {
  }

  /** Every unacknowledged item is pending, once, in increasing id order, whatever its next attempt time says. */
  lemma {:induction false} PendingIsExact(outbox: map<nat, SyncRow>, n: nat)
    ensures forall i: nat :: i in PendingBelow(outbox, n) <==> i < n && i in outbox && outbox[i].ackedAt.None?
    ensures forall j, k :: 0 <= j < k < |PendingBelow(outbox, n)| ==> PendingBelow(outbox, n)[j] < PendingBelow(outbox, n)[k]
  {
    if n > 0 {
      PendingIsExact(outbox, n - 1);
      var p := PendingBelow(outbox, n - 1);
      forall j, k | 0 <= j < k < |PendingBelow(outbox, n)| ensures PendingBelow(outbox, n)[j] < PendingBelow(outbox, n)[k] {
        assert p[j] in p;
      }
    }
  }

  class Store {
    const u: Unicode
    const stamp: Stamps
    var passes: map<string, WeighPass>
    var cycles: map<string, CycleRow>
    var tickets: map<string, TicketRow>
    var outbox: map<nat, SyncRow>
    var nextSync: nat

    function State(): DB
      reads this
    {
      DB(passes, cycles, tickets, outbox, nextSync)
    }

    constructor (u: Unicode, stamp: Stamps)
      ensures this.u == u && this.stamp == stamp && State() == EMPTY_DB
    {
      this.u, this.stamp := u, stamp;
      passes, cycles, tickets, outbox, nextSync := map[], map[], map[], map[], 1;
    }

    /** The copy a transaction works on. */
    method Transaction() returns (tx: DB)
      ensures tx == State()
    {
      tx := DB(passes, cycles, tickets, outbox, nextSync);
    }

    method Commit(tx: DB)
      modifies this
      ensures State() == tx
    {
      passes, cycles, tickets, outbox, nextSync := tx.passes, tx.cycles, tx.tickets, tx.outbox, tx.nextSync;
    }

    method OpenCycle(cycle: WeighCycle, now: Time, disk: bool) returns (ok: bool)
      modifies this
      ensures Done(State(), ok) == Ledger.OpenCycle(u, old(State()), cycle, now, disk)
    {
      var c := cycle;
      if c.id == "" || c.status != Queued { return false; }
      c := c.(first := c.first.(cycleID := c.id, number := 1));
      if !FirstPassOK(c.first) { return false; }
      if c.plate == "" { c := c.(plate := c.first.plate); }
      if c.rfid == "" { c := c.(rfid := c.first.rfid); }
      if c.station == "" { c := c.(station := c.first.station); }
      if c.first.id == "" { return false; }
      if c.queuedAt == 0 { c := c.(queuedAt := c.first.committedAt); }
      if c.queuedAt == 0 { c := c.(queuedAt := now); }
      var tx := Transaction();
      var inserted := InsertPass(tx, c.first);
      if !disk || inserted.None? { return false; }
      var cycled := InsertCycle(u, inserted.value, c);
      if cycled.None? { return false; }
      Commit(cycled.value);
      return true;
    }

    method CallCycle(id: string, at: Time, disk: bool) returns (ok: bool)
      modifies this
      ensures Done(State(), ok) == Ledger.CallCycle(old(State()), id, at, disk)
    {
      if id == "" { return false; }
      var tx := Transaction();
      if !disk || id !in tx.cycles { return false; }
      var c := tx.cycles[id].cycle;
      if c.status == Called { return true; }
      if c.status != Queued || c.id !in tx.cycles { return false; }
      c := c.(status := Called, calledAt := Some(at));
      Commit(UpdateCycle(tx, c));
      return true;
    }

    method MarkCycleStatus(id: string, status: CycleStatus, disk: bool) returns (ok: bool)
      modifies this
      ensures Done(State(), ok) == Ledger.MarkCycleStatus(old(State()), id, status, disk)
    {
      var tx := Transaction();
      if !disk || id !in tx.cycles { return false; }
      var c := tx.cycles[id].cycle;
      if c.status == Complete || c.id !in tx.cycles { return false; }
      Commit(UpdateCycle(tx, c.(status := status)));
      return true;
    }

    method CompleteCycle(cycle: WeighCycle, ticket: Ticket, clock: Time, disk: bool) returns (ok: bool)
      modifies this
      ensures Done(State(), ok) == Ledger.CompleteCycle(old(State()), cycle, ticket, clock, disk)
    {
      if cycle.second.None? { return false; }
      var second := cycle.second.value.(cycleID := cycle.id, number := 2);
      var v := ValidatePair(cycle.first, second, NO_LIMITS);
      if !v.valid { return false; }
      if cycle.status != Called && cycle.status != Complete { return false; }
      var now := clock;
      if cycle.completedAt.Some? && cycle.completedAt.value != 0 { now := cycle.completedAt.value; }
      var c := PairedCycle(cycle, second, v, now);
      var t := FinalTicket(ticket, c, second, now);
      if t.id == "" { return false; }
      var tx := Transaction();
      if !disk || c.id !in tx.cycles || tx.cycles[c.id].status != Called { return false; }
      var inserted := InsertPass(tx, second);
      if inserted.None? { return false; }
      tx := UpdateCycle(inserted.value, c);
      var ticketed := InsertTicket(tx, t);
      if ticketed.None? { return false; }
      var queued := Enqueue(ticketed.value, t, now);
      if queued.None? { return false; }
      Commit(queued.value);
      return true;
    }

    method AckSync(id: nat, now: Time, disk: bool) returns (ok: bool)
      modifies this
      ensures Done(State(), ok) == Ledger.AckSync(old(State()), id, now, disk)
    {
      if !disk || id !in outbox { return false; }
      var entity := outbox[id].entity;
      outbox := outbox[id := outbox[id].(ackedAt := Some(now), lastError := "")];
      if entity in tickets {
        tickets := tickets[entity := tickets[entity].(syncedAt := Some(now))];
      }
      return true;
    }

    method MarkSyncAttempt(id: nat, error: string, next: Time, now: Time, disk: bool) returns (ok: bool)
      modifies this
      ensures Done(State(), ok) == Ledger.MarkSyncAttempt(old(State()), id, error, next, now, disk)
    {
      if !disk { return false; }
      if id in outbox && outbox[id].ackedAt.None? {
        var r := outbox[id];
        outbox := outbox[id := r.(attempts := r.attempts + 1, lastAttempt := Some(now), lastError := error,
                                  nextAttempt := if next == 0 then now else next)];
      }
      return true;
    }

    /** Scans the called rows with this plate key, stopping at a second match. */
    method FindCalledCycle(plate: string, rfid: string) returns (f: Find)
      ensures f == FindCalled(u, State(), plate, rfid)
    {
      var key := NormalizeVehicleKey(u, plate);
      if key == "" { return NotFound; }
      var found, many := Scan(cycles, key, rfid);
      if many { return Ambiguous; }
      if found.None? { return NotFound; }
      f := Found(cycles[found.value].cycle);
    }

    static method Scan(rows: map<string, CycleRow>, key: string, rfid: string) returns (found: Option<string>, many: bool)
      ensures many ==> |Matches(rows, key, rfid)| > 1
      ensures !many ==> Matches(rows, key, rfid) == if found.None? then {} else {found.value}
      ensures found.Some? ==> found.value in rows
    {
      var rest := rows.Keys;
      found := None;
      while rest != {}
        invariant rest <= rows.Keys
        invariant forall c :: c in rows && c !in rest ==> (IsMatch(rows[c], key, rfid) <==> found == Some(c))
        invariant found.Some? ==> found.value in rows && found.value !in rest
        decreases rest
      {
        var c :| c in rest;
        rest := rest - {c};
        if IsMatch(rows[c], key, rfid) {
          if found.Some? {
            Larger({c, found.value}, Matches(rows, key, rfid));
            return found, true;
          }
          found := Some(c);
        }
      }
      many := false;
    }

    /** The active queue, each row once, in the order of its sort keys; `keys` names the rows. */
    method ListQueue() returns (q: seq<WeighCycle>, ghost keys: seq<string>)
      ensures |q| == |keys| && forall i :: 0 <= i < |q| ==> keys[i] in cycles && q[i] == cycles[keys[i]].cycle
      ensures forall i, j :: 0 <= i < j < |keys| ==> RowLess(stamp, cycles, keys[i], keys[j])
      ensures forall i, j :: 0 <= i < j < |keys| ==> keys[i] != keys[j]
      ensures forall c :: c in keys <==> c in QueueIDs(State())
      ensures |q| == |QueueIDs(State())| && forall c :: c in QueueIDs(State()) ==> cycles[c].cycle in q
    {
      hide RowLess;
      q, keys := [], [];
      var rest := QueueIDs(State());
      while rest != {}
        invariant rest <= QueueIDs(State()) <= cycles.Keys && |q| == |keys|
        invariant forall i :: 0 <= i < |q| ==> keys[i] in cycles && q[i] == cycles[keys[i]].cycle
        invariant forall i, c :: 0 <= i < |keys| && c in rest ==> keys[i] != c && RowLess(stamp, cycles, keys[i], c)
        invariant forall i, j :: 0 <= i < j < |keys| ==> keys[i] != keys[j] && RowLess(stamp, cycles, keys[i], keys[j])
        invariant forall c :: c in keys <==> c in QueueIDs(State()) && c !in rest
        invariant |q| + |rest| == |QueueIDs(State())|
        decreases |rest|
      {
        SomeLeast(stamp, cycles, rest);
        var c :| c in rest && Least(stamp, cycles, rest, c);
        rest := rest - {c};
        q, keys := q + [cycles[c].cycle], keys + [c];
      }
      forall c | c in QueueIDs(State()) ensures cycles[c].cycle in q {
        assert c in keys;
      }
    }

    /** The oldest unacknowledged items, up to the batch limit. */
    method PendingSync(limit: int) returns (ids: seq<nat>)
      ensures ids == Take(PendingBelow(outbox, nextSync), BatchLimit(limit))
    {
      var n := BatchLimit(limit);
      ids := [];
      for id := 0 to nextSync
        invariant ids == Take(PendingBelow(outbox, id), n)
      {
        if |ids| < n && id in outbox && outbox[id].ackedAt.None? {
          ids := ids + [id];
        }
      }
    }
  }
}

module Coordinators {
  import opened Domain
  import opened Pairing
  import opened Ledger
  import opened LedgerProofs
  import opened Coordination
  import opened Stores
  import opened Interleaving

  class Coordinator {
    const store: Store
    const policy: Policy

    constructor (store: Store, policy: Policy)
      ensures this.store == store && this.policy == policy
    {
      this.store := store;
      this.policy := policy;
    }

    method RecordFirstPass(pass: WeighPass, d: Draw, disk: bool) returns (cycle: Option<WeighCycle>)
      modifies store
      ensures FirstOut(store.State(), cycle) == Coordination.RecordFirstPass(store.u, old(store.State()), pass, d, disk)
    {
      var p := pass;
      if p.id == "" { p := p.(id := d.passID); }
      p := p.(number := 1);
      if p.direction == NoDirection { p := p.(direction := AToB); }
      if p.committedAt == 0 { p := p.(committedAt := d.now); }
      if !FirstPassOK(p) { return None; }
      var c := NewCycle(p, d);
      var ok := store.OpenCycle(c, d.now, disk);
      if !ok { return None; }
      return Some(c);
    }

    method Call(id: string, now: Time, disk: bool) returns (ok: bool)
      modifies store
      ensures Done(store.State(), ok) == CallCycle(old(store.State()), id, now, disk)
    {
      ok := store.CallCycle(id, now, disk);
    }

    /** `others` are the other callers at work on the store; these transactions of theirs fall between the search and the writing
        transaction. */
    method RecordSecondPass(pass: WeighPass, d: Draw, diskFind: bool, disk: bool, others: Callers, between: seq<Action>)
      returns (cycle: Option<WeighCycle>, ticket: Option<Ticket>, err: Option<Refusal>)
      requires others.cycles == this
      modifies store, others
      ensures var plan := BeginSecond(store.u, policy, old(store.State()), pass, d, diskFind);
              var later := Interleaving.Run(store.u, policy, old(others.Shop()), between);
              && SecondOut(store.State(), cycle, ticket, err) == EndSecond(later.db, plan, d, disk)
              && others.procs == later.procs
    {
      hide BeginSecond, EndSecond, Interleaving.Do;
      var plan := PlanSecondPass(pass, d, diskFind);
      others.Run(between);
      cycle, ticket, err := FinishSecondPass(plan, d, disk);
    }

    /** The search and the verdict. */
    method PlanSecondPass(pass: WeighPass, d: Draw, diskFind: bool) returns (plan: Plan)
      ensures plan == BeginSecond(store.u, policy, store.State(), pass, d, diskFind)
    {
      hide ValidatePair, CalledMatches, VehicleKey, FindCalled;
      if pass.direction != BToA { return Refuse(InvalidPair, None); }
      var p := pass;
      if p.id == "" { p := p.(id := d.passID); }
      p := p.(number := 2);
      if p.committedAt == 0 { p := p.(committedAt := d.now); }
      if !diskFind { return Refuse(StoreFailed, None); }
      var f := store.FindCalledCycle(p.plate, p.rfid);
      if f.Ambiguous? { return Refuse(AmbiguousCall, None); }
      if f.NotFound? { return Refuse(NoCalledCycle, None); }
      var open := f.cycle;
      p := p.(cycleID := open.id);
      var v := ValidatePair(open.first, p, policy);
      if !v.valid {
        if v.status == PairTimeInvalid && policy.maxElapsed > 0 && v.elapsed > policy.maxElapsed {
          return Mark(open, PairTimeInvalid, WindowOver);
        }
        if v.status != WrongTruck { return Mark(open, Called, InvalidPair); }
        return Refuse(InvalidPair, Some(open));
      }
      open := open.(second := Some(p), status := Complete, elapsed := v.elapsed, gross := v.gross, tare := v.tare,
                    net := v.net, completedAt := Some(d.now));
      plan := Finish(open, TicketDraft(f.cycle, p, d));
    }

    /** The writing transaction and the answer. */
    method FinishSecondPass(plan: Plan, d: Draw, disk: bool)
      returns (cycle: Option<WeighCycle>, ticket: Option<Ticket>, err: Option<Refusal>)
      modifies store
      ensures SecondOut(store.State(), cycle, ticket, err) == EndSecond(old(store.State()), plan, d, disk)
    {
      hide CompleteCycle, MarkCycleStatus;
      match plan
      case Refuse(refusal, open) => return open, None, Some(refusal);
      case Mark(open, status, refusal) =>
        var _ := store.MarkCycleStatus(open.id, status, disk);
        return Some(open), None, Some(refusal);
      case Finish(paired, t) =>
        var ok := store.CompleteCycle(paired, t, d.now, disk);
        if !ok || paired.second.None? { return Some(paired), None, Some(StoreFailed); }
        return Some(paired), Some(TicketBack(t, paired)), None;
    }

    /** `listed` and `disk` are the fates of the listing and of each mark; `queue` is the listing. */
    method ExpireOrphans(at: Time, now: Time, listed: bool, disk: string -> bool) returns (count: nat, ok: bool, ghost queue: seq<WeighCycle>)
      modifies store
      ensures Expired(store.State(), count, ok) == ExpireAll(old(store.State()), policy, queue, at, now, listed, disk)
      ensures policy.maxElapsed > 0 && listed && Consistent(store.u, old(store.State())) ==> IsQueue(old(store.State()), queue)
    {
      hide Expire, IsQueue, Consistent;
      queue := [];
      if policy.maxElapsed <= 0 { return 0, true, []; }
      var when := at;
      if when == 0 { when := now; }
      if !listed { return 0, false, []; }
      var q, keys := store.ListQueue();
      queue := q;
      if Consistent(store.u, store.State()) { ListingIsQueue(store.u, store.State(), q, keys); }
      count, ok := MarkOverdue(q, when, disk);
    }

    /** The counting loop. */
    method MarkOverdue(queue: seq<WeighCycle>, at: Time, disk: string -> bool) returns (count: nat, ok: bool)
      modifies store
      ensures Expired(store.State(), count, ok) == Expire(old(store.State()), policy, queue, at, disk)
    {
      hide Ledger.MarkCycleStatus;
      count := 0;
      var i := 0;
      while i < |queue|
        invariant 0 <= i <= |queue|
        invariant Expired(store.State(), count, true) == Expire(old(store.State()), policy, queue[..i], at, disk)
      {
        var open := queue[i];
        assert queue[..i + 1][..i] == queue[..i];
        if open.first.weight.observed != 0 && at - open.first.weight.observed > policy.maxElapsed {
          var marked := store.MarkCycleStatus(open.id, OrphanedFirstPass, disk(open.id));
          if !marked {
            StoppedStays(old(store.State()), queue, at, disk, i + 1);
            return count, false;
          }
          count := count + 1;
        }
        i := i + 1;
      }
      assert queue[..|queue|] == queue;
      ok := true;
    }

    /** Once a mark has failed the rest of the listing is not touched. */
    lemma {:induction false} StoppedStays(db: DB, queue: seq<WeighCycle>, at: Time, disk: string -> bool, k: nat)
      requires k <= |queue| && !Expire(db, policy, queue[..k], at, disk).ok
      ensures Expire(db, policy, queue, at, disk) == Expire(db, policy, queue[..k], at, disk)
      decreases |queue|
    {
      hide Ledger.MarkCycleStatus;
      if k == |queue| {
        assert queue[..k] == queue;
      } else {
        var init := queue[..|queue| - 1];
        assert init[..k] == queue[..k];
        StoppedStays(db, init, at, disk, k);
      }
    }

    lemma ListingIsQueue(u: Unicode, db: DB, queue: seq<WeighCycle>, keys: seq<string>)
      requires Consistent(u, db)
      requires |queue| == |keys| && forall i :: 0 <= i < |queue| ==> keys[i] in db.cycles && queue[i] == db.cycles[keys[i]].cycle
      requires forall i, j :: 0 <= i < j < |keys| ==> keys[i] != keys[j]
      requires forall c :: c in keys <==> c in QueueIDs(db)
      ensures IsQueue(db, queue)
    {
      forall i | 0 <= i < |queue| ensures queue[i].id == keys[i] && keys[i] in keys {
        assert RowOK(u, db.passes, keys[i], db.cycles[keys[i]]);
      }
      forall c | c in QueueIDs(db) ensures exists i :: 0 <= i < |queue| && queue[i].id == c {
        assert c in keys;
        var i :| 0 <= i < |keys| && keys[i] == c;
        assert queue[i].id == c;
      }
    }
  }
  /** The other callers of the store, each between two transactions of its own. */
  class Callers {
    const cycles: Coordinator
    var procs: map<nat, Proc>

    ghost function Shop(): Shop
      reads this, cycles.store
    {
      Interleaving.Shop(cycles.store.State(), procs)
    }

    constructor (cycles: Coordinator)
      ensures this.cycles == cycles && procs == map[]
    {
      this.cycles, procs := cycles, map[];
    }

    method Run(acts: seq<Action>)
      modifies this, cycles.store
      ensures Shop() == Interleaving.Run(cycles.store.u, cycles.policy, old(Shop()), acts)
    {
      hide Interleaving.Do;
      for i := 0 to |acts|
        invariant Shop() == Interleaving.Run(cycles.store.u, cycles.policy, old(Shop()), acts[..i])
      {
        assert acts[..i + 1][..i] == acts[..i];
        Do(acts[i]);
      }
      assert acts[..|acts|] == acts;
    }

    /** One transaction of one of them. */
    method Do(a: Action)
      modifies this, cycles.store
      ensures Shop() == Interleaving.Do(cycles.store.u, cycles.policy, old(Shop()), a)
    {
      hide BeginSecond, EndSecond, Coordination.RecordFirstPass, Ledger.CallCycle, Ledger.MarkCycleStatus, IsQueue;
      match a
      case First(pass, d, disk) => var _ := cycles.RecordFirstPass(pass, d, disk);
      case CallNow(id, now, disk) => var _ := cycles.Call(id, now, disk);
      case Begin(pid, pass, d, disk) =>
        var plan := cycles.PlanSecondPass(pass, d, disk);
        procs := procs[pid := Returning(plan, d)];
      case End(pid, disk) =>
        if pid in procs && procs[pid].Returning? {
          var _, _, _ := cycles.FinishSecondPass(procs[pid].plan, procs[pid].d, disk);
          procs := procs - {pid};
        }
      case List(pid, at, listing) =>
        if cycles.policy.maxElapsed > 0 && IsQueue(cycles.store.State(), listing) { procs := procs[pid := Expiring(listing, at)]; }
      case ExpireNext(pid, disk) => ExpireOne(pid, disk);
      case Ack(item, now, disk) => var _ := cycles.store.AckSync(item, now, disk);
      case Attempt(item, error, next, now, disk) => var _ := cycles.store.MarkSyncAttempt(item, error, next, now, disk);
    }

    method ExpireOne(pid: nat, disk: bool)
      modifies this, cycles.store
      ensures Shop() == Interleaving.Do(cycles.store.u, cycles.policy, old(Shop()), ExpireNext(pid, disk))
    {
      if pid in procs && procs[pid].Expiring? && procs[pid].todo != [] {
        var c, rest, at := procs[pid].todo[0], procs[pid].todo[1..], procs[pid].at;
        if Overdue(cycles.policy, c, at) {
          var marked := cycles.store.MarkCycleStatus(c.id, OrphanedFirstPass, disk);
          if !marked {
            procs := procs - {pid};
            return;
          }
        }
        procs := procs[pid := Expiring(rest, at)];
      }
    }
  }
}
