/**
 The two-way wrapper and the commit bridge (internal/twopass) around the engine, over the shared store.
 A world step is one action under the recorder's lock, or one store transaction of somebody else.
 */
module TwoPass {
  import opened Domain
  import opened Pairing
  import opened Ledger
  import opened LedgerProofs
  import opened Coordination
  import opened Interleaving
  import opened EngineSpec

  datatype Settings = Settings(cfg: Config, policy: Policy, u: Unicode)

  datatype Outcome = Outcome(direction: Direction, cycle: Option<WeighCycle>, ticket: Option<Ticket>, failed: bool)

  datatype Bridge = Bridge(direction: Direction, outcomes: map<string, Outcome>, evidence: map<string, seq<Camera>>)

  datatype World = World(eng: Eng, direction: Direction, bound: Option<WeighCycle>, bridge: Bridge, shop: Shop)

  const NEW_WORLD := World(NEW_ENGINE, NoDirection, None, Bridge(NoDirection, map[], map[]), NEW_SHOP)

  /** What one action draws from outside. `between` are other callers' transactions that fall between the two transactions
      of a return; `diskFind` and `disk` are the fates of the search and of the writing transaction. */
  datatype Outside = Outside(now: Time, suffix: string, registry: Registry, between: seq<Action>, diskFind: bool, disk: bool)

  // ---------- the commit bridge ----------

  function EvidenceOf(b: Bridge, txID: string): seq<Camera> {
    if txID in b.evidence then b.evidence[txID] else []
  }

  function PassFrom(t: PassTicket, direction: Direction, camera: seq<Camera>): WeighPass {
    WeighPass(t.id, "", 0, direction, t.station, t.plate, t.rfid, t.weight, t.mode, t.overrides, camera, t.committedAt)
  }

  function DrawFor(o: Outside): Draw {
    Draw(o.now, "pass-" + o.suffix, "cycle-" + o.suffix, "final-" + o.suffix)
  }

  datatype Committed = Committed(bridge: Bridge, shop: Shop, ok: bool)

  ghost function Commit(set_: Settings, o: Outside, b: Bridge, shop: Shop, t: PassTicket): Committed {
    var pass := PassFrom(t, b.direction, EvidenceOf(b, t.txID));
    match b.direction
    case NoDirection => Committed(b, shop, false)
    case AToB =>
      var out := RecordFirstPass(set_.u, shop.db, pass, DrawFor(o), o.disk);
      Committed(b.(outcomes := b.outcomes[t.txID := Outcome(AToB, out.cycle, None, out.cycle.None?)]),
                shop.(db := out.db), out.cycle.Some?)
    case BToA =>
      var plan := BeginSecond(set_.u, set_.policy, shop.db, pass, DrawFor(o), o.diskFind);
      var later := Interleaving.Run(set_.u, set_.policy, shop, o.between);
      var out := EndSecond(later.db, plan, DrawFor(o), o.disk);
      Committed(b.(outcomes := b.outcomes[t.txID := Outcome(BToA, out.cycle, out.ticket, out.err.Some?)]),
                later.(db := out.db), out.err.None?)
  }

  // ---------- the wrapper ----------

  function SwapPosition(p: Position): Position {
    Position(p.exitPresent, p.rearPresent, p.frontPresent, p.entryPresent,
             p.exitOpen, p.exitClosed, p.entryOpen, p.entryClosed, p.safetyClear, p.observed)
  }

  function SwapOutputs(o: Outputs): Outputs {
    Outputs(o.exitGreen, o.entryGreen, o.buzzer, o.exitOpen, o.entryOpen)
  }

  function DetectDirection(p: Position): Direction {
    if p.entryPresent && !p.exitPresent then AToB else if p.exitPresent && !p.entryPresent then BToA else NoDirection
  }

  predicate AllClear(p: Position) {
    !p.entryPresent && !p.frontPresent && !p.rearPresent && !p.exitPresent
  }

  /** There is a transaction and it is not complete. */
  predicate Active(s: Eng) {
    s.tx.Some? && s.tx.value.state != Completed
  }

  ghost function EnvFor(set_: Settings, o: Outside, w: World): Env {
    Env(o.now, o.suffix, o.registry, Store(t => Commit(set_, o, w.bridge, w.shop, t).ok), set_.u)
  }

  function ResetSession(w: World, txID: string): World {
    var b := if txID == "" then w.bridge
             else w.bridge.(outcomes := w.bridge.outcomes - {txID}, evidence := w.bridge.evidence - {txID});
    w.(direction := NoDirection, bound := None, bridge := b.(direction := NoDirection))
  }

  /** A return binds the called cycle its accepted identity resolves to. */
  ghost function TryBind(set_: Settings, disk: bool, w: World): World {
    if w.direction != BToA || w.eng.tx.None? || w.eng.tx.value.identity != IdAccepted then w
    else
      var f := FindCalled(set_.u, w.shop.db, w.eng.tx.value.plate.plate, w.eng.tx.value.tag.tag);
      w.(bound := if disk && f.Found? then Some(f.cycle) else None)
  }

  /** One engine event; the ticket it offers, if any, goes through the bridge. */
  ghost function Feed(set_: Settings, o: Outside, w: World, e: Event): World {
    var out := Step(set_.cfg, EnvFor(set_, o, w), w.eng, e);
    if out.offered.None? then w.(eng := out.eng)
    else
      var c := Commit(set_, o, w.bridge, w.shop, out.offered.value);
      w.(eng := out.eng, bridge := c.bridge, shop := c.shop)
  }

  function TxID(s: Eng): string {
    if s.tx.Some? then s.tx.value.id else ""
  }

  function DoReset(w: World): World {
    var out := OnReset(w.eng);
    if out.ok then ResetSession(w.(eng := out.eng), TxID(w.eng)) else w
  }

  function Cleared(w: World, p: Position): World {
    if w.eng.tx.Some? && w.eng.tx.value.state == Completed && AllClear(p) then DoReset(w) else w
  }

  function Directed(w: World, p: Position): World {
    if w.direction == NoDirection && !Active(w.eng) then
      var d := DetectDirection(p);
      w.(direction := d, bridge := if d == NoDirection then w.bridge else w.bridge.(direction := d))
    else w
  }

  datatype WorldEvent =
    | Sensors(p: Position)
    | Device(e: Event)
    | CameraShot(c: Camera)
    | OperatorReset
    | Elsewhere(a: Action)

  ghost function Act(set_: Settings, o: Outside, w: World, e: WorldEvent): World {
    match e
    case Sensors(p) =>
      var w1 := Directed(Cleared(w, p), p);
      TryBind(set_, o.diskFind, Feed(set_, o, w1, SeePosition(if w1.direction == BToA then SwapPosition(p) else p)))
    case Device(d) =>
      if d.SeePosition? || d == Reset then w
      else if d.SeeTag? || d.SeePlate? then TryBind(set_, o.diskFind, Feed(set_, o, w, d))
      else Feed(set_, o, w, d)
    case CameraShot(c) =>
      var id := if Active(w.eng) then w.eng.tx.value.id else "";
      if id == "" || c.cameraID == "" || c.imageRef == "" then w
      else w.(bridge := w.bridge.(evidence := w.bridge.evidence[id := EvidenceOf(w.bridge, id) + [c]]))
    case OperatorReset => DoReset(w)
    case Elsewhere(a) => w.(shop := Do(set_.u, set_.policy, w.shop, a))
  }

  /** Whether the action returns to its caller without an error. */
  ghost function Answer(set_: Settings, o: Outside, w: World, e: WorldEvent): bool {
    match e
    case Device(d) => d.SeePosition? || d == Reset || Step(set_.cfg, EnvFor(set_, o, w), w.eng, d).ok
    case CameraShot(c) => Active(w.eng) && w.eng.tx.value.id != "" && c.cameraID != "" && c.imageRef != ""
    case OperatorReset => OnReset(w.eng).ok
    case _ => true
  }

  // ---------- the snapshot everybody else sees ----------

  datatype View = View(
    id: string, state: State, mode: Mode, direction: Direction, passNumber: nat,
    cycleID: string, cycleStatus: Option<CycleStatus>, businessComplete: bool, gross: int, tare: int, net: int,
    tag: TagRead, plate: PlateRead, camera: seq<Camera>, identity: Identity, reason: IdentityReason,
    position: Positioned, pos: Position, faults: seq<Fault>, overrides: seq<Override>,
    accepted: Option<Weight>, ticketID: string, outputs: Outputs)

  const ALL_DEVICES := [Scale, Rfid, Lpr, EntrySensor, FrontSensor, RearSensor, ExitSensor,
                        EntryBarrier, ExitBarrier, PhysicalSafety, RemoteIO, AuditStore]

  /** The fault slice: one entry a faulty device, in one fixed order. */
  function FaultList(m: map<Domain.Device, Fault>, devices: seq<Domain.Device>): seq<Fault> {
    if devices == [] then []
    else (if devices[0] in m then [m[devices[0]]] else []) + FaultList(m, devices[1..])
  }

  function BaseView(w: World, t: Tx): View {
    var d := if w.direction == NoDirection then AToB else w.direction;
    var back := d == BToA;
    var (cid, st, g, ta, n) :=
      if w.bound.Some? then (w.bound.value.id, Some(w.bound.value.status), w.bound.value.gross, w.bound.value.tare, w.bound.value.net)
      else ("", None, 0, 0, 0);
    View(t.id, t.state, t.mode, d, if back then 2 else 1, cid, st, false, g, ta, n,
         t.tag, t.plate, EvidenceOf(w.bridge, t.id), t.identity, t.reason, t.position,
         if back then SwapPosition(t.pos) else t.pos, FaultList(t.faults, ALL_DEVICES), t.overrides, t.accepted, t.ticketID,
         if back then SwapOutputs(t.outputs) else t.outputs)
  }

  function WithOutcome(v: View, o: Outcome): View {
    var cid := if o.cycle.Some? then o.cycle.value.id else "";
    var st := if o.cycle.Some? then Some(o.cycle.value.status) else None;
    var v1 := v.(cycleID := cid, cycleStatus := st);
    var v2 := if o.direction == AToB then v1.(ticketID := "", businessComplete := false) else v1;
    var v3 := if o.direction == BToA && o.ticket.Some? && o.ticket.value.id != "" && o.cycle.Some?
              then v2.(ticketID := o.ticket.value.id, businessComplete := true, cycleStatus := Some(Complete),
                       gross := o.cycle.value.gross, tare := o.cycle.value.tare, net := o.cycle.value.net)
              else v2;
    if o.failed then v3.(businessComplete := false) else v3
  }

  /** An uncalled return that has been identified: everything off. */
  predicate Mismatched(w: World, v: View) {
    v.direction == BToA && v.identity == IdAccepted && w.bound.None? && v.state != FaultLockout && v.state != Completed
  }

  function Snapshot(w: World): Option<View> {
    if w.eng.tx.None? then None
    else
      var t := w.eng.tx.value;
      var v := BaseView(w, t);
      var v1 := if t.id in w.bridge.outcomes then WithOutcome(v, w.bridge.outcomes[t.id]) else v;
      Some(if Mismatched(w, v1)
           then v1.(state := QueueMismatch, cycleStatus := Some(UnpairedReturn), businessComplete := false, outputs := ALL_OFF)
           else v1)
  }

  /** The outputs the reconciler is asked for. */
  function Desired(w: World): Outputs {
    var v := Snapshot(w);
    if v.None? then ALL_OFF else v.value.outputs
  }

  /** A script of world actions. */
  datatype Cue = Cue(o: Outside, e: WorldEvent)

  ghost function Play(set_: Settings, w: World, script: seq<Cue>): World {
    if script == [] then w
    else
      var last := script[|script| - 1];
      Act(set_, last.o, Play(set_, w, script[..|script| - 1]), last.e)
  }
}
