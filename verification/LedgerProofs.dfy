/**
 What every durable state is: rows agree with the records they carry, passes belong to their cycles,
 tickets are in one-to-one correspondence with completed cycles and with outbox items.
 */
module LedgerProofs {
  import opened Domain
  import opened Pairing
  import opened Ledger

  type Passes = map<string, WeighPass>
  type Cycles = map<string, CycleRow>
  type Tickets = map<string, TicketRow>
  type Outbox = map<nat, SyncRow>

  ghost predicate Stored(passes: Passes, p: WeighPass, cycleID: string) {
    p.id != "" && p.id in passes && passes[p.id] == p && p.cycleID == cycleID
  }

  /** One cycle row: columns and record agree, and the passes it names are stored. */
  ghost predicate RowOK(u: Unicode, passes: Passes, id: string, r: CycleRow) {
    var c := r.cycle;
    && id != "" && c.id == id
    && r.status == c.status
    && r.plateKey == VehicleKey(u, c.plate)
    && r.firstPassID == c.first.id
    && r.secondPassID == PassIDOf(c.second)
    && r.gross == c.gross && r.tare == c.tare && r.net == c.net
    && c.plate == c.first.plate && c.rfid == c.first.rfid
    && FirstPassOK(c.first) && Stored(passes, c.first, id)
    && (c.status == Complete <==> c.second.Some?)
    && (c.second.Some? ==> Stored(passes, c.second.value, id) && PairOK(c))
  }

  /** A completed cycle carries a sound pair and its figures. */
  ghost predicate PairOK(c: WeighCycle)
    requires c.second.Some?
  {
    var s := c.second.value;
    && SoundPair(c.first, s)
    && c.gross == c.first.weight.kg && c.tare == s.weight.kg && c.net == c.gross - c.tare
    && c.elapsed == s.weight.observed - c.first.weight.observed
  }

  /** A stored pass is the first or the second pass of the cycle it names. */
  ghost predicate PassOK(cycles: Cycles, id: string, p: WeighPass) {
    && p.id == id
    && p.cycleID in cycles
    && (p == cycles[p.cycleID].cycle.first || Some(p) == cycles[p.cycleID].cycle.second)
  }

  predicate Restates(t: Ticket, c: WeighCycle) {
    && c.status == Complete && c.second.Some?
    && t.cycleID == c.id
    && t.firstPassID == c.first.id && t.secondPassID == c.second.value.id
    && t.gross == c.gross && t.tare == c.tare && t.net == c.net
    && t.firstRawRef == c.first.weight.rawRef && t.secondRawRef == c.second.value.weight.rawRef
  }

  /** A ticket restates its completed cycle. */
  ghost predicate TicketOK(cycles: Cycles, id: string, t: Ticket) {
    && t.id == id && id != ""
    && t.cycleID in cycles && t.txID == t.cycleID
    && cycles[t.cycleID].status == Complete
    && Restates(t, cycles[t.cycleID].cycle)
  }

  /** An outbox item carries its ticket, and is acknowledged exactly when the ticket is marked synced. */
  ghost predicate ItemOK(tickets: Tickets, i: nat, r: SyncRow) {
    && r.entity in tickets
    && r.payload == tickets[r.entity].ticket
    && (r.ackedAt.Some? <==> tickets[r.entity].syncedAt.Some?)
  }

  ghost predicate TicketFor(tickets: Tickets, cycleID: string, t: string) {
    t in tickets && tickets[t].ticket.cycleID == cycleID
  }

  ghost predicate ItemFor(outbox: Outbox, ticketID: string, i: nat) {
    i in outbox && outbox[i].entity == ticketID
  }

  ghost predicate HasTicket(tickets: Tickets, cycleID: string) {
    exists t :: TicketFor(tickets, cycleID, t)
  }

  ghost predicate HasItem(outbox: Outbox, ticketID: string) {
    exists i :: ItemFor(outbox, ticketID, i)
  }

  ghost predicate CyclesOK(u: Unicode, cycles: Cycles, passes: Passes) {
    forall c {:trigger RowOK(u, passes, c, cycles[c])} :: c in cycles ==> RowOK(u, passes, c, cycles[c])
  }

  ghost predicate PassesOK(passes: Passes, cycles: Cycles) {
    forall p {:trigger PassOK(cycles, p, passes[p])} :: p in passes ==> PassOK(cycles, p, passes[p])
  }

  ghost predicate TicketsOK(tickets: Tickets, cycles: Cycles) {
    && (forall t {:trigger TicketOK(cycles, t, tickets[t].ticket)} :: t in tickets ==> TicketOK(cycles, t, tickets[t].ticket))
    && (forall c, t, t' :: TicketFor(tickets, c, t) && TicketFor(tickets, c, t') ==> t == t')
    && (forall c {:trigger HasTicket(tickets, c)} :: c in cycles && cycles[c].status == Complete ==> HasTicket(tickets, c))
  }

  ghost predicate OutboxOK(outbox: Outbox, next: nat, tickets: Tickets) {
    && (forall i {:trigger ItemOK(tickets, i, outbox[i])} :: i in outbox ==> i < next && ItemOK(tickets, i, outbox[i]))
    && (forall t, i, j :: ItemFor(outbox, t, i) && ItemFor(outbox, t, j) ==> i == j)
    && (forall t {:trigger HasItem(outbox, t)} :: t in tickets ==> HasItem(outbox, t))
  }

  ghost predicate Consistent(u: Unicode, db: DB) {
    && CyclesOK(u, db.cycles, db.passes)
    && PassesOK(db.passes, db.cycles)
    && TicketsOK(db.tickets, db.cycles)
    && OutboxOK(db.outbox, db.nextSync, db.tickets)
  }

  /** `c` was read from the store at some time: what never changes about a cycle is still as it was. */
  ghost predicate Known(db: DB, c: WeighCycle) {
    && c.id in db.cycles
    && db.cycles[c.id].cycle.first == c.first
    && c.plate == c.first.plate && c.rfid == c.first.rfid
  }

  /** What one transaction may do to the cycles: none disappears, first passes and completed cycles stay as they are,
      and a cycle becomes complete only from a durable CALLED status. */
  ghost predicate RowAdvances(a: CycleRow, b: CycleRow) {
    && b.cycle.first == a.cycle.first
    && (a.status == Complete ==> b == a)
    && (b.status == Complete ==> a.status == Complete || a.status == Called)
  }

  ghost predicate Advances(a: DB, b: DB) {
    && (forall c {:trigger b.cycles[c]} {:trigger a.cycles[c]} :: c in a.cycles ==> c in b.cycles && RowAdvances(a.cycles[c], b.cycles[c]))
    && (forall c {:trigger b.cycles[c]} :: c in b.cycles && c !in a.cycles ==> b.cycles[c].status == Queued)
    && (forall t {:trigger b.tickets[t]} {:trigger a.tickets[t]} :: t in a.tickets ==> t in b.tickets && b.tickets[t].ticket == a.tickets[t].ticket)
  }

  // ---------- each transaction keeps the store consistent ----------

  lemma RowCarries(u: Unicode, a: Passes, b: Passes, id: string, r: CycleRow)
    requires RowOK(u, a, id, r)
    requires forall p :: p in a ==> p in b && b[p] == a[p]
    ensures RowOK(u, b, id, r)
  {
  }

  /** Transactions that touch neither tickets nor completed cycles keep the ticket table right. */
  lemma TicketsCarry(tickets: Tickets, a: Cycles, b: Cycles)
    requires TicketsOK(tickets, a)
    requires forall c :: c in a && a[c].status == Complete ==> c in b && b[c] == a[c]
    requires forall c :: c in b && b[c].status == Complete ==> c in a && a[c].status == Complete
    ensures TicketsOK(tickets, b)
  {
    forall t | t in tickets ensures TicketOK(b, t, tickets[t].ticket) {
      assert TicketOK(a, t, tickets[t].ticket);
    }
  }

  lemma RowsAfter(u: Unicode, cycles: Cycles, passes: Passes, id: string, row: CycleRow, passes': Passes)
    requires CyclesOK(u, cycles, passes)
    requires forall p :: p in passes ==> p in passes' && passes'[p] == passes[p]
    requires RowOK(u, passes', id, row)
    ensures CyclesOK(u, cycles[id := row], passes')
  {
    var cycles' := cycles[id := row];
    forall k | k in cycles' ensures RowOK(u, passes', k, cycles'[k]) {
      if k != id { RowCarries(u, passes, passes', k, cycles[k]); }
    }
  }

  lemma PassesAfter(passes: Passes, cycles: Cycles, p: WeighPass, id: string, row: CycleRow)
    requires PassesOK(passes, cycles)
    requires id in cycles ==> row.cycle.first == cycles[id].cycle.first
                              && (cycles[id].cycle.second.Some? ==> row.cycle.second == cycles[id].cycle.second)
    requires PassOK(cycles[id := row], p.id, p)
    ensures PassesOK(passes[p.id := p], cycles[id := row])
  {
    var passes', cycles' := passes[p.id := p], cycles[id := row];
    forall k | k in passes' ensures PassOK(cycles', k, passes'[k]) {
      if k != p.id { assert PassOK(cycles, k, passes[k]); }
    }
  }

  /** A new ticket for a newly completed cycle. */
  lemma TicketsAfter(tickets: Tickets, cycles: Cycles, t: Ticket, row: CycleRow)
    requires TicketsOK(tickets, cycles)
    requires t.id !in tickets && forall k :: k in tickets ==> tickets[k].ticket.cycleID != t.cycleID
    requires TicketOK(cycles[t.cycleID := row], t.id, t)
    ensures TicketsOK(tickets[t.id := TicketRow(t, None)], cycles[t.cycleID := row])
  {
    var tickets', cycles' := tickets[t.id := TicketRow(t, None)], cycles[t.cycleID := row];
    forall k | k in tickets' ensures TicketOK(cycles', k, tickets'[k].ticket) {
      if k != t.id { assert TicketOK(cycles, k, tickets[k].ticket); }
    }
    forall c, k, k' | TicketFor(tickets', c, k) && TicketFor(tickets', c, k') ensures k == k' {
      if k != t.id && k' != t.id {
        assert TicketFor(tickets, c, k) && TicketFor(tickets, c, k');
      }
    }
    forall c | c in cycles' && cycles'[c].status == Complete ensures HasTicket(tickets', c) {
      if c == t.cycleID {
        assert TicketFor(tickets', c, t.id);
      } else {
        assert HasTicket(tickets, c);
        var k :| TicketFor(tickets, c, k);
        assert TicketFor(tickets', c, k);
      }
    }
  }

  /** A new outbox item for a new ticket. */
  lemma OutboxAfter(outbox: Outbox, next: nat, tickets: Tickets, item: SyncRow, t: Ticket)
    requires OutboxOK(outbox, next, tickets) && t.id !in tickets
    requires item.entity == t.id && item.payload == t && item.ackedAt.None?
    requires forall i :: i in outbox ==> outbox[i].entity != t.id
    ensures OutboxOK(outbox[next := item], next + 1, tickets[t.id := TicketRow(t, None)])
  {
    var outbox', tickets' := outbox[next := item], tickets[t.id := TicketRow(t, None)];
    forall i | i in outbox' ensures i < next + 1 && ItemOK(tickets', i, outbox'[i]) {
      if i != next { assert ItemOK(tickets, i, outbox[i]); }
    }
    forall k, i, j | ItemFor(outbox', k, i) && ItemFor(outbox', k, j) ensures i == j {
      if i != next && j != next {
        assert ItemFor(outbox, k, i) && ItemFor(outbox, k, j);
      }
    }
    forall k | k in tickets' ensures HasItem(outbox', k) {
      if k == t.id {
        assert ItemFor(outbox', k, next);
      } else {
        assert HasItem(outbox, k);
        var i: nat :| ItemFor(outbox, k, i);
        assert i < next by { assert ItemOK(tickets, i, outbox[i]); }
        assert ItemFor(outbox', k, i);
      }
    }
  }

  /** A new cycle says of its truck what its first pass says, or nothing, and has no second pass. */
  predicate FitsFirstPass(cycle: WeighCycle) {
    && (cycle.plate == "" || cycle.plate == cycle.first.plate)
    && (cycle.rfid == "" || cycle.rfid == cycle.first.rfid)
    && cycle.second.None?
  }

  lemma OpenKeeps(u: Unicode, db: DB, cycle: WeighCycle, now: Time, disk: bool)
    requires Consistent(u, db) && FitsFirstPass(cycle)
    ensures var d := OpenCycle(u, db, cycle, now, disk);
            Consistent(u, d.db) && Advances(db, d.db) && (!d.ok ==> d.db == db)
  {
    var d := OpenCycle(u, db, cycle, now, disk);
    if d.ok {
      var c := Prepared(cycle, now);
      var row := d.db.cycles[c.id];
      assert d.db.cycles == db.cycles[c.id := row] && row.cycle == c && d.db.passes == db.passes[c.first.id := c.first];
      assert c.id !in db.cycles && c.first.id !in db.passes;
      RowsAfter(u, db.cycles, db.passes, c.id, row, d.db.passes);
      PassesAfter(db.passes, db.cycles, c.first, c.id, row);
      TicketsCarry(db.tickets, db.cycles, d.db.cycles);
    }
  }

  /** Opening any cycle at all: the tables stay consistent exactly when it is refused, and changes nothing, or fits its pass. */
  lemma OpenKeepsExactly(u: Unicode, db: DB, cycle: WeighCycle, now: Time, disk: bool)
    requires Consistent(u, db)
    ensures var d := OpenCycle(u, db, cycle, now, disk);
            (Consistent(u, d.db) <==> !d.ok || FitsFirstPass(cycle)) && Advances(db, d.db) && (!d.ok ==> d.db == db)
  {
    var d := OpenCycle(u, db, cycle, now, disk);
    if d.ok {
      if FitsFirstPass(cycle) { OpenKeeps(u, db, cycle, now, disk); }
      if Consistent(u, d.db) {
        var c := Prepared(cycle, now);
        assert RowOK(u, d.db.passes, c.id, d.db.cycles[c.id]);
      }
    }
  }

  /** Rewriting the status, and only facts outside the pair, of a cycle that is not complete. */
  lemma RestatusKeeps(u: Unicode, db: DB, c: WeighCycle)
    requires Consistent(u, db) && c.id in db.cycles
    requires db.cycles[c.id].status != Complete && c.status != Complete
    requires var o := db.cycles[c.id].cycle; c == o.(status := c.status, calledAt := c.calledAt)
    ensures Consistent(u, UpdateCycle(db, c)) && Advances(db, UpdateCycle(db, c))
  {
    var db' := UpdateCycle(db, c);
    var row := db'.cycles[c.id];
    assert RowOK(u, db.passes, c.id, db.cycles[c.id]);
    assert db'.cycles == db.cycles[c.id := row] && RowOK(u, db.passes, c.id, row);
    RowsAfter(u, db.cycles, db.passes, c.id, row, db.passes);
    var p := c.first;
    assert db.passes[p.id := p] == db.passes;
    PassesAfter(db.passes, db.cycles, p, c.id, row);
    TicketsCarry(db.tickets, db.cycles, db'.cycles);
  }

  lemma CallKeeps(u: Unicode, db: DB, id: string, at: Time, disk: bool)
    requires Consistent(u, db)
    ensures var d := CallCycle(db, id, at, disk);
            Consistent(u, d.db) && Advances(db, d.db) && (!d.ok ==> d.db == db)
  {
    if id in db.cycles && db.cycles[id].cycle.status == Queued {
      assert RowOK(u, db.passes, id, db.cycles[id]);
      RestatusKeeps(u, db, db.cycles[id].cycle.(status := Called, calledAt := Some(at)));
    }
  }

  lemma MarkKeeps(u: Unicode, db: DB, id: string, status: CycleStatus, disk: bool)
    requires Consistent(u, db) && status != Complete
    ensures var d := MarkCycleStatus(db, id, status, disk);
            Consistent(u, d.db) && Advances(db, d.db) && (!d.ok ==> d.db == db)
  {
    if id in db.cycles && db.cycles[id].cycle.status != Complete {
      assert RowOK(u, db.passes, id, db.cycles[id]);
      RestatusKeeps(u, db, db.cycles[id].cycle.(status := status));
    }
  }

  /** Marking any status at all: only a COMPLETE that is taken breaks consistency. */
  lemma MarkKeepsExactly(u: Unicode, db: DB, id: string, status: CycleStatus, disk: bool)
    requires Consistent(u, db)
    ensures var d := MarkCycleStatus(db, id, status, disk);
            && (Consistent(u, d.db) <==> !(d.ok && status == Complete))
            && (status != Complete ==> Advances(db, d.db)) && (!d.ok ==> d.db == db)
  {
    var d := MarkCycleStatus(db, id, status, disk);
    if status != Complete {
      MarkKeeps(u, db, id, status, disk);
    } else if d.ok {
      assert RowOK(u, db.passes, id, db.cycles[id]);
      assert !RowOK(u, d.db.passes, id, d.db.cycles[id]);
    }
  }

  /** What a completion that commits has done. */
  ghost predicate CompletedBy(db: DB, db': DB, cycle: WeighCycle, ticketID: string) {
    && cycle.second.Some?
    && cycle.id in db.cycles && db.cycles[cycle.id].status == Called
    && cycle.id in db'.cycles && db'.cycles[cycle.id].status == Complete
    && db'.cycles[cycle.id].cycle.second == Some(cycle.second.value.(cycleID := cycle.id, number := 2))
    && TicketFor(db'.tickets, cycle.id, ticketID)
  }

  /** The tables after a completion that commits. */
  lemma CompletionTables(u: Unicode, db: DB, cycle: WeighCycle, ticket: Ticket, clock: Time, disk: bool)
    returns (second: WeighPass, row: CycleRow, t: Ticket, item: SyncRow)
    requires Consistent(u, db) && Known(db, cycle) && (ticket.txID == "" || ticket.txID == cycle.id)
    requires CompleteCycle(db, cycle, ticket, clock, disk).ok
    ensures var d := CompleteCycle(db, cycle, ticket, clock, disk).db;
            && d.passes == db.passes[second.id := second] && second.id !in db.passes
            && d.cycles == db.cycles[cycle.id := row]
            && d.tickets == db.tickets[t.id := TicketRow(t, None)] && t.id !in db.tickets && t.id == ticket.id
            && d.outbox == db.outbox[db.nextSync := item] && d.nextSync == db.nextSync + 1
    ensures cycle.second.Some? && second == cycle.second.value.(cycleID := cycle.id, number := 2)
    ensures db.cycles[cycle.id].status == Called && row.status == Complete && row.cycle.second == Some(second)
    ensures row.cycle.first == cycle.first && RowOK(u, db.passes[second.id := second], cycle.id, row)
    ensures t.id != "" && t.cycleID == cycle.id == t.txID && Restates(t, row.cycle)
    ensures forall k :: k in db.tickets ==> db.tickets[k].ticket.cycleID != cycle.id
    ensures item.entity == t.id && item.payload == t && item.ackedAt.None?
    ensures forall i :: i in db.outbox ==> db.outbox[i].entity != t.id
  {
    assert RowOK(u, db.passes, cycle.id, db.cycles[cycle.id]);
    second := cycle.second.value.(cycleID := cycle.id, number := 2);
    var v := ValidatePair(cycle.first, second, NO_LIMITS);
    var now := CompletionTime(cycle, clock);
    var c := PairedCycle(cycle, second, v, now);
    t := FinalTicket(ticket, c, second, now);
    var d := CompleteCycle(db, cycle, ticket, clock, disk).db;
    row, item := d.cycles[cycle.id], d.outbox[db.nextSync];
    PairAcceptance(cycle.first, second, NO_LIMITS);
  }

  lemma RefusedCompletionChangesNothing(db: DB, cycle: WeighCycle, ticket: Ticket, clock: Time, disk: bool)
    ensures var d := CompleteCycle(db, cycle, ticket, clock, disk); !d.ok ==> d.db == db
  {
  }

  lemma CompletionKeeps(u: Unicode, db: DB, cycle: WeighCycle, ticket: Ticket, clock: Time, disk: bool)
    requires Consistent(u, db) && Known(db, cycle) && (ticket.txID == "" || ticket.txID == cycle.id)
    ensures var d := CompleteCycle(db, cycle, ticket, clock, disk);
            && Consistent(u, d.db) && Advances(db, d.db)
            && (!d.ok ==> d.db == db)
            && (d.ok ==> CompletedBy(db, d.db, cycle, ticket.id))
  {
    hide CompleteCycle, CyclesOK, PassesOK, TicketsOK, OutboxOK, RowOK;
    RefusedCompletionChangesNothing(db, cycle, ticket, clock, disk);
    if CompleteCycle(db, cycle, ticket, clock, disk).ok {
      var second, row, t, item := CompletionTables(u, db, cycle, ticket, clock, disk);
      CalledHasNoSecond(u, db, cycle.id);
      RowsAfter(u, db.cycles, db.passes, cycle.id, row, db.passes[second.id := second]);
      PassesAfter(db.passes, db.cycles, second, cycle.id, row);
      assert TicketOK(db.cycles[t.cycleID := row], t.id, t);
      TicketsAfter(db.tickets, db.cycles, t, row);
      OutboxAfter(db.outbox, db.nextSync, db.tickets, item, t);
    }
  }

  lemma CalledHasNoSecond(u: Unicode, db: DB, id: string)
    requires Consistent(u, db) && id in db.cycles && db.cycles[id].status != Complete
    ensures db.cycles[id].cycle.second.None? && db.cycles[id].cycle.id == id
  {
    assert RowOK(u, db.passes, id, db.cycles[id]);
  }

  /** The completion reads its cycle from this store, and its ticket is for that cycle. */
  ghost predicate FitsStore(db: DB, cycle: WeighCycle, ticket: Ticket) {
    Known(db, cycle) && (ticket.txID == "" || ticket.txID == cycle.id)
  }

  lemma ConsistentCompletionFits(u: Unicode, db: DB, cycle: WeighCycle, ticket: Ticket, clock: Time, disk: bool)
    requires Consistent(u, db)
    requires CompleteCycle(db, cycle, ticket, clock, disk).ok && Consistent(u, CompleteCycle(db, cycle, ticket, clock, disk).db)
    ensures FitsStore(db, cycle, ticket)
  {
    var d := CompleteCycle(db, cycle, ticket, clock, disk).db;
    assert RowOK(u, db.passes, cycle.id, db.cycles[cycle.id]);
    assert RowOK(u, d.passes, cycle.id, d.cycles[cycle.id]);
    assert TicketOK(d.cycles, ticket.id, d.tickets[ticket.id].ticket);
  }

  /** Completing any cycle at all with any ticket: the tables stay consistent exactly when it is refused, and changes nothing,
      or cycle and ticket fit the store. */
  lemma CompletionKeepsExactly(u: Unicode, db: DB, cycle: WeighCycle, ticket: Ticket, clock: Time, disk: bool)
    requires Consistent(u, db)
    ensures var d := CompleteCycle(db, cycle, ticket, clock, disk);
            && (Consistent(u, d.db) <==> !d.ok || FitsStore(db, cycle, ticket)) && (!d.ok ==> d.db == db)
            && (d.ok && FitsStore(db, cycle, ticket) ==> Advances(db, d.db) && CompletedBy(db, d.db, cycle, ticket.id))
  {
    hide CompleteCycle, Consistent;
    RefusedCompletionChangesNothing(db, cycle, ticket, clock, disk);
    var d := CompleteCycle(db, cycle, ticket, clock, disk);
    if FitsStore(db, cycle, ticket) { CompletionKeeps(u, db, cycle, ticket, clock, disk); }
    if d.ok && Consistent(u, d.db) { ConsistentCompletionFits(u, db, cycle, ticket, clock, disk); }
  }

  lemma SyncedKeepsTickets(tickets: Tickets, cycles: Cycles, e: string, at: Option<Time>)
    requires TicketsOK(tickets, cycles) && e in tickets
    ensures TicketsOK(tickets[e := tickets[e].(syncedAt := at)], cycles)
  {
    var tickets' := tickets[e := tickets[e].(syncedAt := at)];
    forall k | k in tickets' ensures TicketOK(cycles, k, tickets'[k].ticket) {
      assert TicketOK(cycles, k, tickets[k].ticket);
    }
    forall c, k, k' | TicketFor(tickets', c, k) && TicketFor(tickets', c, k') ensures k == k' {
      assert TicketFor(tickets, c, k) && TicketFor(tickets, c, k');
    }
    forall c | c in cycles && cycles[c].status == Complete ensures HasTicket(tickets', c) {
      assert HasTicket(tickets, c);
      var k :| TicketFor(tickets, c, k);
      assert TicketFor(tickets', c, k);
    }
  }

  /** Rewriting one outbox item, keeping its entity and payload, together with its ticket's synced mark. */
  lemma RewriteKeepsOutbox(outbox: Outbox, next: nat, tickets: Tickets, id: nat, item: SyncRow, at: Option<Time>)
    requires OutboxOK(outbox, next, tickets) && id in outbox && item.entity in tickets
    requires item.entity == outbox[id].entity && item.payload == outbox[id].payload
    requires item.ackedAt.Some? <==> at.Some?
    ensures OutboxOK(outbox[id := item], next, tickets[item.entity := tickets[item.entity].(syncedAt := at)])
  {
    var outbox', tickets' := outbox[id := item], tickets[item.entity := tickets[item.entity].(syncedAt := at)];
    assert ItemFor(outbox, item.entity, id);
    forall i | i in outbox' ensures i < next && ItemOK(tickets', i, outbox'[i]) {
      assert ItemOK(tickets, i, outbox[i]);
      assert ItemFor(outbox, outbox[i].entity, i);
    }
    forall k, i, j | ItemFor(outbox', k, i) && ItemFor(outbox', k, j) ensures i == j {
      assert ItemFor(outbox, k, i) && ItemFor(outbox, k, j);
    }
    forall k | k in tickets' ensures HasItem(outbox', k) {
      assert HasItem(outbox, k);
      var i: nat :| ItemFor(outbox, k, i);
      assert ItemFor(outbox', k, i);
    }
  }

  lemma AckKeeps(u: Unicode, db: DB, id: nat, now: Time, disk: bool)
    requires Consistent(u, db)
    ensures var d := AckSync(db, id, now, disk);
            && Consistent(u, d.db) && Advances(db, d.db) && d.db.cycles == db.cycles && (!d.ok ==> d.db == db)
  {
    var d := AckSync(db, id, now, disk);
    if d.ok {
      assert ItemOK(db.tickets, id, db.outbox[id]);
      var e := db.outbox[id].entity;
      assert d.db.tickets == db.tickets[e := db.tickets[e].(syncedAt := Some(now))];
      SyncedKeepsTickets(db.tickets, db.cycles, e, Some(now));
      RewriteKeepsOutbox(db.outbox, db.nextSync, db.tickets, id, d.db.outbox[id], Some(now));
    }
  }

  lemma AttemptKeeps(u: Unicode, db: DB, id: nat, error: string, next: Time, now: Time, disk: bool)
    requires Consistent(u, db)
    ensures var d := MarkSyncAttempt(db, id, error, next, now, disk);
            Consistent(u, d.db) && Advances(db, d.db) && d.db.cycles == db.cycles && d.db.tickets == db.tickets
  {
    var d := MarkSyncAttempt(db, id, error, next, now, disk);
    if disk && id in db.outbox && db.outbox[id].ackedAt.None? {
      assert ItemOK(db.tickets, id, db.outbox[id]);
      var e := db.outbox[id].entity;
      assert d.db.tickets == db.tickets[e := db.tickets[e].(syncedAt := db.tickets[e].syncedAt)];
      RewriteKeepsOutbox(db.outbox, db.nextSync, db.tickets, id, d.db.outbox[id], db.tickets[e].syncedAt);
    }
  }

  // ---------- what consistency says ----------

  /** The passes a cycle has. */
  ghost function PassesOf(db: DB, cycleID: string): set<string> {
    set p | p in db.passes && db.passes[p].cycleID == cycleID
  }

  /** Completed cycles have exactly two passes, all others exactly one. */
  lemma PassCount(u: Unicode, db: DB, c: string)
    requires Consistent(u, db) && c in db.cycles
    ensures |PassesOf(db, c)| == if db.cycles[c].status == Complete then 2 else 1
  {
    var cy := db.cycles[c].cycle;
    assert RowOK(u, db.passes, c, db.cycles[c]);
    forall p | p in PassesOf(db, c) ensures p == cy.first.id || Some(p) == PassIDOf(cy.second) {
      assert PassOK(db.cycles, p, db.passes[p]);
    }
    if cy.second.Some? {
      assert PassesOf(db, c) == {cy.first.id, cy.second.value.id};
    } else {
      assert PassesOf(db, c) == {cy.first.id};
    }
  }

  ghost function CompleteIDs(db: DB): set<string> {
    set c | c in db.cycles && db.cycles[c].status == Complete
  }

  /** Every ticket restates one completed cycle and a positive net weight, and every completed cycle has its ticket. */
  lemma TicketsRestateCycles(u: Unicode, db: DB)
    requires Consistent(u, db)
    ensures forall t {:trigger db.tickets[t]} :: t in db.tickets ==>
              && db.tickets[t].ticket.cycleID in CompleteIDs(db)
              && Restates(db.tickets[t].ticket, db.cycles[db.tickets[t].ticket.cycleID].cycle)
              && db.tickets[t].ticket.net == db.tickets[t].ticket.gross - db.tickets[t].ticket.tare > 0
    ensures forall c :: c in CompleteIDs(db) ==> exists t :: TicketFor(db.tickets, c, t)
  {
    forall t | t in db.tickets
      ensures db.tickets[t].ticket.cycleID in CompleteIDs(db)
      ensures Restates(db.tickets[t].ticket, db.cycles[db.tickets[t].ticket.cycleID].cycle)
      ensures db.tickets[t].ticket.net == db.tickets[t].ticket.gross - db.tickets[t].ticket.tare > 0
    {
      assert TicketOK(db.cycles, t, db.tickets[t].ticket);
      var c := db.tickets[t].ticket.cycleID;
      assert RowOK(u, db.passes, c, db.cycles[c]);
    }
    forall c | c in CompleteIDs(db) ensures exists t :: TicketFor(db.tickets, c, t) {
      assert HasTicket(db.tickets, c);
    }
  }

  /** Tickets and completed cycles are in bijection: a ticket names one completed cycle, every completed cycle is named by one
      ticket, and there are as many of one as of the other. */
  lemma TicketBijection(u: Unicode, db: DB)
    requires Consistent(u, db)
    ensures forall t {:trigger db.tickets[t]} :: t in db.tickets ==> db.tickets[t].ticket.cycleID in CompleteIDs(db)
    ensures forall c :: c in CompleteIDs(db) ==> exists t :: TicketFor(db.tickets, c, t)
    ensures forall c, t, t' :: TicketFor(db.tickets, c, t) && TicketFor(db.tickets, c, t') ==> t == t'
    ensures |db.tickets| == |CompleteIDs(db)|
  {
    TicketsRestateCycles(u, db);
    var owner := map t | t in db.tickets :: db.tickets[t].ticket.cycleID;
    forall a, b | a in owner && b in owner && owner[a] == owner[b] ensures a == b {
      assert TicketFor(db.tickets, owner[a], a) && TicketFor(db.tickets, owner[a], b);
    }
    forall c | c in CompleteIDs(db) ensures c in owner.Values {
      var t :| TicketFor(db.tickets, c, t);
      assert owner[t] == c;
    }
    assert owner.Values == CompleteIDs(db) && owner.Keys == db.tickets.Keys;
    InjectiveSize(owner);
  }

  /** Item i delivers ticket t: it carries it, and is acknowledged exactly when the ticket is marked synced. */
  ghost predicate Delivers(db: DB, i: nat, t: string) {
    && i in db.outbox && t in db.tickets && db.outbox[i].entity == t
    && db.outbox[i].payload == db.tickets[t].ticket
    && (db.outbox[i].ackedAt.Some? <==> db.tickets[t].syncedAt.Some?)
  }

  /** Tickets and outbox items are in bijection: every item delivers one ticket, every ticket is delivered by one item, and
      there are as many of one as of the other. */
  lemma ItemBijection(u: Unicode, db: DB)
    requires Consistent(u, db)
    ensures forall i: nat {:trigger db.outbox[i]} :: i in db.outbox ==> Delivers(db, i, db.outbox[i].entity)
    ensures forall t :: t in db.tickets ==> exists i: nat :: Delivers(db, i, t)
    ensures forall t, i: nat, j: nat :: Delivers(db, i, t) && Delivers(db, j, t) ==> i == j
    ensures |db.tickets| == |db.outbox|
  {
    forall i: nat | i in db.outbox ensures Delivers(db, i, db.outbox[i].entity) {
      assert ItemOK(db.tickets, i, db.outbox[i]);
    }
    forall t | t in db.tickets ensures exists i: nat :: Delivers(db, i, t) {
      assert HasItem(db.outbox, t);
      var i: nat :| ItemFor(db.outbox, t, i);
      assert Delivers(db, i, t);
    }
    forall t, i: nat, j: nat | Delivers(db, i, t) && Delivers(db, j, t) ensures i == j {
      assert ItemFor(db.outbox, t, i) && ItemFor(db.outbox, t, j);
    }
    SameCount(db);
  }

  lemma SameCount(db: DB)
    requires forall i: nat {:trigger db.outbox[i]} :: i in db.outbox ==> Delivers(db, i, db.outbox[i].entity)
    requires forall t :: t in db.tickets ==> exists i: nat :: Delivers(db, i, t)
    requires forall t, i: nat, j: nat :: Delivers(db, i, t) && Delivers(db, j, t) ==> i == j
    ensures |db.tickets| == |db.outbox|
  {
    var carried := map i | i in db.outbox :: db.outbox[i].entity;
    forall a, b | a in carried && b in carried && carried[a] == carried[b] ensures a == b {
      assert Delivers(db, a, carried[a]) && Delivers(db, b, carried[a]);
    }
    forall t | t in db.tickets ensures t in carried.Values {
      var i: nat :| Delivers(db, i, t);
      assert carried[i] == t;
    }
    assert carried.Values == db.tickets.Keys && carried.Keys == db.outbox.Keys;
    InjectiveSize(carried);
  }

  /** An injective map has as many values as keys. */
  lemma {:induction false} InjectiveSize<K, V>(m: map<K, V>)
    requires forall a, b :: a in m && b in m && m[a] == m[b] ==> a == b
    ensures |m.Values| == |m|
    decreases |m|
  {
    if |m| == 0 {
      assert m.Values == {};
    } else {
      var k :| k in m;
      var rest := map a | a in m && a != k :: m[a];
      assert rest.Keys == m.Keys - {k};
      forall a | a in rest ensures rest[a] != m[k] {}
      assert m.Values == rest.Values + {m[k]} by {
        forall v | v in m.Values ensures v in rest.Values + {m[k]} {
          var a :| a in m && m[a] == v;
          if a != k { assert rest[a] == v; }
        }
        forall v | v in rest.Values + {m[k]} ensures v in m.Values {
          if v != m[k] {
            var a :| a in rest && rest[a] == v;
            assert m[a] == v;
          } else {
            assert m[k] in m.Values;
          }
        }
      }
      InjectiveSize(rest);
      assert m[k] !in rest.Values;
    }
  }

  lemma KnownStays(a: DB, b: DB, c: WeighCycle)
    requires Known(a, c) && Advances(a, b)
    ensures Known(b, c)
  {
  }

  // ---------- finding the called cycle ----------

  lemma FoundIsCalled(u: Unicode, db: DB, plate: string, rfid: string)
    requires Consistent(u, db)
    ensures var f := FindCalled(u, db, plate, rfid);
            f.Found? ==> && Known(db, f.cycle) && f.cycle == db.cycles[f.cycle.id].cycle
                         && f.cycle.status == Called && CalledMatches(u, db, plate, rfid) == {f.cycle.id}
  {
    var m := CalledMatches(u, db, plate, rfid);
    if |m| == 1 {
      var c := TheOne(m);
      assert m == {c} by {
        if x :| x in m && x != c {
          assert {x, c} <= m;
          assert |m| >= |{x, c}| by { Larger({x, c}, m); }
        }
      }
      assert RowOK(u, db.passes, c, db.cycles[c]);
    }
  }

  /** A cycle found for a returning truck is the only called cycle that matches it; with plates whose two keys agree, as on
      ASCII, the pair rules never call it the wrong truck. */
  lemma FoundIsTheTruck(u: Unicode, db: DB, pass: WeighPass, p: Policy)
    requires Consistent(u, db) && pass.direction == BToA && pass.number == 2
    requires FindCalled(u, db, pass.plate, pass.rfid).Found?
    requires var c := FindCalled(u, db, pass.plate, pass.rfid).cycle;
             CycleIdentity(pass.plate) == VehicleKey(u, pass.plate) && CycleIdentity(c.plate) == VehicleKey(u, c.plate)
    ensures var c := FindCalled(u, db, pass.plate, pass.rfid).cycle;
            && CalledMatches(u, db, pass.plate, pass.rfid) == {c.id}
            && ValidatePair(c.first, pass, p).status != WrongTruck
  {
    FoundIsCalled(u, db, pass.plate, pass.rfid);
    var c := FindCalled(u, db, pass.plate, pass.rfid).cycle;
    assert RowOK(u, db.passes, c.id, db.cycles[c.id]);
  }

  /** Exactly when the two keys tell the plates apart does the coordinator find a truck only to reject it as the wrong one. */
  lemma WrongTruckExactly(u: Unicode, db: DB, pass: WeighPass, p: Policy)
    requires Consistent(u, db) && pass.direction == BToA && pass.number == 2
    requires FindCalled(u, db, pass.plate, pass.rfid).Found?
    ensures var c := FindCalled(u, db, pass.plate, pass.rfid).cycle;
            ValidatePair(c.first, pass, p).status == WrongTruck
            <==> CycleIdentity(pass.plate) == "" || CycleIdentity(pass.plate) != CycleIdentity(c.plate)
  {
    FoundIsCalled(u, db, pass.plate, pass.rfid);
    var c := FindCalled(u, db, pass.plate, pass.rfid).cycle;
    assert RowOK(u, db.passes, c.id, db.cycles[c.id]);
  }
}
