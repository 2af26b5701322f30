/**
 The durable store as values (internal/adapters/sqlitestore): four tables with their unique keys,
 and every transaction as a function that either makes all of its changes or none of them.
 `disk` says whether the statements and the commit of the transaction succeed.
 */
module Ledger {
  import opened Domain
  import opened Pairing

  datatype CycleRow = CycleRow(
    status: CycleStatus, plateKey: string, firstPassID: string, secondPassID: Option<string>,
    gross: int, tare: int, net: int, cycle: WeighCycle)

  datatype TicketRow = TicketRow(ticket: Ticket, syncedAt: Option<Time>)

  datatype SyncRow = SyncRow(
    entity: string, payload: Ticket, attempts: nat, lastAttempt: Option<Time>, lastError: string,
    nextAttempt: Time, ackedAt: Option<Time>)

  datatype DB = DB(
    passes: map<string, WeighPass>, cycles: map<string, CycleRow>, tickets: map<string, TicketRow>,
    outbox: map<nat, SyncRow>, nextSync: nat)

  const EMPTY_DB := DB(map[], map[], map[], map[], 1)

  /** The table contents after a transaction, and whether it committed. */
  datatype Done = Done(db: DB, ok: bool)

  // ---------- statements ----------

  function PassIDOf(p: Option<WeighPass>): Option<string> {
    if p.None? || p.value.id == "" then None else Some(p.value.id)
  }

  predicate PassKeyTaken(db: DB, p: WeighPass) {
    p.id in db.passes || exists k :: k in db.passes && db.passes[k].cycleID == p.cycleID && db.passes[k].number == p.number
  }

  function InsertPass(db: DB, p: WeighPass): Option<DB> {
    if p.id == "" || p.cycleID == "" || PassKeyTaken(db, p) then None
    else Some(db.(passes := db.passes[p.id := p]))
  }

  predicate CycleKeyTaken(db: DB, c: WeighCycle) {
    c.id in db.cycles || exists k :: k in db.cycles && db.cycles[k].firstPassID == c.first.id
  }

  function InsertCycle(u: Unicode, db: DB, c: WeighCycle): Option<DB> {
    if CycleKeyTaken(db, c) then None
    else Some(db.(cycles := db.cycles[c.id := CycleRow(
      c.status, VehicleKey(u, c.plate), c.first.id, PassIDOf(c.second), c.gross, c.tare, c.net, c)]))
  }

  /** Rewrites the columns an update names; the plate key and the first pass column stay. */
  function UpdateCycle(db: DB, c: WeighCycle): DB
    requires c.id in db.cycles
  {
    var r := db.cycles[c.id];
    db.(cycles := db.cycles[c.id := r.(
      status := c.status, secondPassID := PassIDOf(c.second), gross := c.gross, tare := c.tare, net := c.net, cycle := c)])
  }

  predicate TicketKeyTaken(db: DB, t: Ticket) {
    || t.id in db.tickets
    || (exists k :: k in db.tickets && db.tickets[k].ticket.txID == t.txID)
    || (t.cycleID != "" && exists k :: k in db.tickets && db.tickets[k].ticket.cycleID == t.cycleID)
  }

  function InsertTicket(db: DB, t: Ticket): Option<DB> {
    if TicketKeyTaken(db, t) then None
    else Some(db.(tickets := db.tickets[t.id := TicketRow(t, None)]))
  }

  function Enqueue(db: DB, t: Ticket, now: Time): Option<DB> {
    if exists i :: i in db.outbox && db.outbox[i].entity == t.id then None
    else Some(db.(outbox := db.outbox[db.nextSync := SyncRow(t.id, t, 0, None, "", now, None)], nextSync := db.nextSync + 1))
  }

  // ---------- transactions ----------

  function WhenSet(at: Time, now: Time): Time {
    if at == 0 then now else at
  }

  /** The defaults OpenCycle fills in. */
  function Prepared(c: WeighCycle, now: Time): WeighCycle {
    c.(first := c.first.(cycleID := c.id, number := 1),
       plate := OrElse(c.plate, c.first.plate),
       rfid := OrElse(c.rfid, c.first.rfid),
       station := OrElse(c.station, c.first.station),
       queuedAt := WhenSet(WhenSet(c.queuedAt, c.first.committedAt), now))
  }

  function OpenCycle(u: Unicode, db: DB, cycle: WeighCycle, now: Time, disk: bool): Done {
    var c := Prepared(cycle, now);
    if c.id == "" || c.status != Queued || !FirstPassOK(c.first) || c.first.id == "" || !disk then Done(db, false)
    else match InsertPass(db, c.first)
      case None => Done(db, false)
      case Some(db1) =>
        match InsertCycle(u, db1, c)
        case None => Done(db, false)
        case Some(db2) => Done(db2, true)
  }

  function CallCycle(db: DB, id: string, at: Time, disk: bool): Done {
    if id == "" || !disk || id !in db.cycles then Done(db, false)
    else
      var c := db.cycles[id].cycle;
      if c.status == Called then Done(db, true)
      else if c.status != Queued || c.id !in db.cycles then Done(db, false)
      else Done(UpdateCycle(db, c.(status := Called, calledAt := Some(at))), true)
  }

  function MarkCycleStatus(db: DB, id: string, status: CycleStatus, disk: bool): Done {
    if !disk || id !in db.cycles then Done(db, false)
    else
      var c := db.cycles[id].cycle;
      if c.status == Complete || c.id !in db.cycles then Done(db, false)
      else Done(UpdateCycle(db, c.(status := status)), true)
  }

  function ModeRank(m: Mode): nat {
    match m
    case Lockout => 4
    case Manual => 3
    case Degraded => 2
    case _ => 1
  }

  function CombineMode(a: Mode, b: Mode): Mode {
    if ModeRank(b) > ModeRank(a) then b else if a == NoMode then Normal else a
  }

  const NANOS_PER_SECOND := 1_000_000_000

  function FinalTicket(t: Ticket, c: WeighCycle, second: WeighPass, now: Time): Ticket {
    t.(cycleID := c.id,
       txID := OrElse(t.txID, c.id),
       station := OrElse(t.station, c.station),
       plate := OrElse(t.plate, c.plate),
       rfid := OrElse(t.rfid, c.rfid),
       firstPassID := c.first.id,
       secondPassID := second.id,
       gross := c.gross, tare := c.tare, net := c.net,
       firstObserved := c.first.weight.observed,
       secondObserved := second.weight.observed,
       firstRawRef := c.first.weight.rawRef,
       secondRawRef := second.weight.rawRef,
       elapsedSeconds := c.elapsed / NANOS_PER_SECOND,
       mode := if t.mode == NoMode then CombineMode(c.first.mode, second.mode) else t.mode,
       overrides := if t.overrides == [] then c.first.overrides + second.overrides else t.overrides,
       committedAt := now)
  }

  function PairedCycle(c: WeighCycle, second: WeighPass, v: Verdict, now: Time): WeighCycle {
    c.(status := Complete, second := Some(second), elapsed := v.elapsed,
       gross := v.gross, tare := v.tare, net := v.net, completedAt := Some(now))
  }

  function CompletionTime(c: WeighCycle, now: Time): Time {
    if c.completedAt.Some? && c.completedAt.value != 0 then c.completedAt.value else now
  }

  function CompleteCycle(db: DB, cycle: WeighCycle, ticket: Ticket, clock: Time, disk: bool): Done {
    if cycle.second.None? then Done(db, false)
    else
      var second := cycle.second.value.(cycleID := cycle.id, number := 2);
      var v := ValidatePair(cycle.first, second, NO_LIMITS);
      if !v.valid || (cycle.status != Called && cycle.status != Complete) then Done(db, false)
      else
        var now := CompletionTime(cycle, clock);
        var c := PairedCycle(cycle, second, v, now);
        var t := FinalTicket(ticket, c, second, now);
        if t.id == "" || !disk || c.id !in db.cycles || db.cycles[c.id].status != Called then Done(db, false)
        else match InsertPass(db, second)
          case None => Done(db, false)
          case Some(db1) =>
            match InsertTicket(UpdateCycle(db1, c), t)
            case None => Done(db, false)
            case Some(db2) =>
              match Enqueue(db2, t, now)
              case None => Done(db, false)
              case Some(db3) => Done(db3, true)
  }

  function AckSync(db: DB, id: nat, now: Time, disk: bool): Done {
    if !disk || id !in db.outbox then Done(db, false)
    else
      var r := db.outbox[id];
      var acked := db.(outbox := db.outbox[id := r.(ackedAt := Some(now), lastError := "")]);
      Done(if r.entity in db.tickets
           then acked.(tickets := db.tickets[r.entity := db.tickets[r.entity].(syncedAt := Some(now))])
           else acked, true)
  }

  function MarkSyncAttempt(db: DB, id: nat, error: string, next: Time, now: Time, disk: bool): Done {
    if !disk then Done(db, false)
    else if id !in db.outbox || db.outbox[id].ackedAt.Some? then Done(db, true)
    else
      var r := db.outbox[id];
      Done(db.(outbox := db.outbox[id := r.(
        attempts := r.attempts + 1, lastAttempt := Some(now), lastError := error, nextAttempt := WhenSet(next, now))]), true)
  }

  // ---------- queries ----------

  predicate IsMatch(r: CycleRow, key: string, rfid: string) {
    r.status == Called && r.plateKey == key && (rfid == "" || r.cycle.rfid == "" || r.cycle.rfid == rfid)
  }

  ghost function Matches(cycles: map<string, CycleRow>, key: string, rfid: string): set<string> {
    set c | c in cycles && IsMatch(cycles[c], key, rfid)
  }

  ghost function CalledMatches(u: Unicode, db: DB, plate: string, rfid: string): set<string> {
    Matches(db.cycles, VehicleKey(u, plate), rfid)
  }

  lemma Larger<T>(a: set<T>, b: set<T>)
    requires a <= b
    ensures |a| <= |b|
  {
    assert b == a + (b - a);
  }

  datatype Find = NotFound | Ambiguous | Found(cycle: WeighCycle)

  ghost function TheOne(s: set<string>): string
    requires |s| == 1
  {
    var c :| c in s; c
  }

  ghost function FindCalled(u: Unicode, db: DB, plate: string, rfid: string): Find {
    var m := CalledMatches(u, db, plate, rfid);
    if VehicleKey(u, plate) == "" || |m| == 0 then NotFound
    else if |m| == 1 then Found(db.cycles[TheOne(m)].cycle)
    else Ambiguous
  }

  /** The ids of the active queue. */
  function QueueIDs(db: DB): set<string> {
    set c | c in db.cycles && (db.cycles[c].status == Queued || db.cycles[c].status == Called)
  }

  /** `q` lists the active queue, each cycle once, in some order. */
  predicate IsQueue(db: DB, q: seq<WeighCycle>) {
    && (forall i :: 0 <= i < |q| ==> q[i].id in QueueIDs(db) && db.cycles[q[i].id].cycle == q[i])
    && (forall i, j :: 0 <= i < j < |q| ==> q[i].id != q[j].id)
    && (forall c :: c in QueueIDs(db) ==> exists i :: 0 <= i < |q| && q[i].id == c)
  }
}
