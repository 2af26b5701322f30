/**
 The physical-pass state machine (internal/engine/engine.go) as a function of state and event.
 `marks` and `frames` record the history of the current transaction: when entry was authorised, when weighing became
 possible, which tickets were offered to the store, and every scale frame processed while weighing.
 */
module EngineSpec {
  import opened Domain
  import opened Pairing

  datatype Config = Config(station: string, emptyMax: int, minStable: int, confirmations: int, tolerance: int)

  /** The defaults New fills in. */
  function Configured(c: Config): (r: Config)
    ensures r.emptyMax > 0 && r.minStable > 0 && r.confirmations > 0 && r.tolerance >= 0
  {
    Config(OrElse(c.station, "EDGE-01"),
           if c.emptyMax <= 0 then 500 else c.emptyMax,
           if c.minStable <= 0 then 500 else c.minStable,
           if c.confirmations <= 0 then 2 else c.confirmations,
           if c.tolerance < 0 then 0 else c.tolerance)
  }

  datatype IdentityReason =
    | NoReason | ChannelsMatch | PlateExpected(expected: string, read: string) | TagDegraded | PlateDegraded

  datatype Tx = Tx(
    id: string, startedAt: Time, state: State, mode: Mode,
    tag: TagRead, plate: PlateRead, identity: Identity, reason: IdentityReason,
    position: Positioned, pos: Position, latestScale: Option<Audited>,
    accepted: Option<Weight>, confirmations: nat,
    faults: map<Device, Fault>, overrides: seq<Override>,
    ticketID: string, committedAt: Option<Time>, exitSeen: bool, completedAt: Option<Time>,
    outputs: Outputs)

  datatype Mark =
    | Authorized(tx: Tx, scale: Option<Audited>)
    | Ready(tx: Tx, scale: Option<Audited>)
    | Offered(ticket: PassTicket, accepted: bool)

  datatype Eng = Eng(
    tx: Option<Tx>, lastScale: Option<Audited>, faults: map<Device, Fault>, stableBase: Option<Audited>,
    marks: seq<Mark>, frames: seq<Audited>)

  const NEW_ENGINE := Eng(None, None, map[], None, [], [])

  datatype Lookup = LookupFailed | NotMapped | Mapped(plate: string)

  /** The vehicle registry, when there is one. */
  datatype Registry = NoRegistry | Registry(resolve: string -> Lookup)

  /** The ticket store, when there is one: its answer to each ticket. */
  datatype Sink = NoStore | Store(commit: PassTicket -> bool)

  /** What an event handler draws from outside: the clock, a fresh identifier, the registry and the ticket store. */
  datatype Env = Env(now: Time, suffix: string, registry: Registry, sink: Sink, u: Unicode)

  datatype Event =
    | SeePosition(p: Position)
    | SeeTag(tag: TagRead)
    | SeePlate(plate: PlateRead)
    | SeeScale(a: Audited)
    | SetFault(f: Fault)
    | ClearFault(d: Device)
    | Grant(o: Override)
    | Reset

  datatype Out = Out(eng: Eng, ok: bool, offered: Option<PassTicket>)

  // ---------- small helpers ----------

  predicate BeforeWeigh(s: State) {
    s == EntryAuthorized || s == Entering || s == Positioning || s == ReadyToWeigh
  }

  function Rank(r: Role): nat {
    match r
    case Supervisor => 2
    case Operator => 1
    case NoRole => 0
  }

  function RequiredRole(d: Device, auxFaults: nat): Role {
    if auxFaults > 1 || d == EntryBarrier || d == ExitBarrier || d == PhysicalSafety then Supervisor else Operator
  }

  predicate ValidOverride(o: Override) {
    o.txID != "" && o.device != Scale && o.reason != "" && o.authorizedBy != "" && o.evidence != []
  }

  predicate HasOverride(t: Tx, d: Device, e: Evidence) {
    exists i :: 0 <= i < |t.overrides| && t.overrides[i].device == d && t.overrides[i].expiredAt.None? && e in t.overrides[i].evidence
  }

  predicate ActiveOverride(t: Tx, d: Device) {
    exists i :: 0 <= i < |t.overrides| && t.overrides[i].device == d && t.overrides[i].expiredAt.None?
  }

  predicate IsAux(faults: map<Device, Fault>, d: Device)
    requires d in faults
  {
    d != Scale && !faults[d].critical && faults[d].overridable
  }

  function AuxDevices(faults: map<Device, Fault>): set<Device> {
    set d | d in faults && IsAux(faults, d)
  }

  function WhenSeen(observed: Time, now: Time): Time {
    if observed != 0 then observed else now
  }

  function Set(s: Eng, t: Tx): Eng {
    s.(tx := Some(t))
  }

  // ---------- the locked helpers ----------

  function LockTx(t: Tx): Tx {
    t.(mode := Lockout, state := FaultLockout, outputs := ALL_OFF)
  }

  function Lock(s: Eng): (r: Eng)
    requires s.tx.Some?
    ensures r.tx.Some?
  {
    Set(s, LockTx(s.tx.value))
  }

  function SyncFaults(s: Eng): (r: Eng)
    requires s.tx.Some?
    ensures r.tx.Some?
  {
    Set(s, s.tx.value.(faults := s.faults))
  }

  function UpdateMode(s: Eng): (r: Eng)
    requires s.tx.Some?
    ensures r.tx.Some?
  {
    var t := s.tx.value;
    var aux := |AuxDevices(s.faults)|;
    if t.state == FaultLockout then s
    else if aux > 1 then Set(s, t.(mode := Manual))
    else if t.mode == Manual then s
    else Set(s, t.(mode := if aux == 0 then Normal else Degraded))
  }

  function TryAuthorize(cfg: Config, s: Eng): (r: Eng)
    requires s.tx.Some?
    ensures r.tx.Some?
  {
    var t := s.tx.value;
    if t.identity != IdAccepted || t.state == FaultLockout then s
    else if !t.pos.safetyClear || t.pos.frontPresent || t.pos.rearPresent || s.lastScale.None? then s
    else
      var r := s.lastScale.value.reading;
      if !r.Sound() then Lock(s)
      else if !r.stable || Abs(r.kg) > cfg.emptyMax then s
      else Set(s, t.(state := EntryAuthorized, outputs := t.outputs.(entryGreen := true, entryOpen := true)))
           .(marks := s.marks + [Authorized(t, s.lastScale)])
  }

  function EntryOff(o: Outputs): Outputs {
    o.(entryGreen := false, entryOpen := false)
  }

  function EvaluatePosition(s: Eng): (r: Eng)
    requires s.tx.Some?
    ensures r.tx.Some?
  {
    var t := s.tx.value;
    var front, rear := FrontSensor in s.faults, RearSensor in s.faults;
    if !front && !rear && t.pos.frontPresent && t.pos.rearPresent then
      Set(s, t.(position := PosAccepted, outputs := EntryOff(t.outputs)))
    else if front && rear then
      Set(s, t.(position := PosManual, mode := Manual))
    else if (front && t.pos.rearPresent && HasOverride(t, FrontSensor, PositionConfirmed))
         || (rear && t.pos.frontPresent && HasOverride(t, RearSensor, PositionConfirmed)) then
      Set(s, t.(position := PosAccepted, mode := Degraded, outputs := EntryOff(t.outputs)))
    else
      Set(s, t.(position := PosPending))
  }

  function TryReady(s: Eng): (r: Eng)
    requires s.tx.Some?
    ensures r.tx.Some?
  {
    var t := s.tx.value;
    if t.state == FaultLockout || t.state == Completed then s
    else if t.identity != IdAccepted || t.position != PosAccepted || s.lastScale.None? then s
    else if !s.lastScale.value.reading.Sound() then Lock(s)
    else if BeforeWeigh(t.state) then
      Set(s, t.(state := ReadyToWeigh)).(marks := s.marks + [Ready(t, s.lastScale)])
    else s
  }

  predicate TagBad(s: Eng)
    requires s.tx.Some?
  {
    Rfid in s.faults || s.tx.value.tag.health == Faulty || s.tx.value.tag.health == Disconnected
  }

  predicate PlateBad(s: Eng)
    requires s.tx.Some?
  {
    Lpr in s.faults || s.tx.value.plate.health == Faulty || s.tx.value.plate.health == Disconnected
  }

  function GoManual(s: Eng): (r: Eng)
    requires s.tx.Some?
    ensures r.tx.Some?
  {
    Set(s, s.tx.value.(identity := IdManual, mode := Manual))
  }

  function Resolve(env: Env, tag: string): Lookup {
    match env.registry
    case NoRegistry => LookupFailed
    case Registry(resolve) => resolve(tag)
  }

  /** Both channels read: the registry's plate decides. */
  function CrossCheck(cfg: Config, env: Env, s: Eng): (r: Eng)
    requires s.tx.Some?
    ensures r.tx.Some?
  {
    var t := s.tx.value;
    match Resolve(env, t.tag.tag)
    case Mapped(expected) =>
      if VehicleKey(env.u, expected) != VehicleKey(env.u, t.plate.plate) then
        Set(s, t.(identity := IdMismatch, reason := PlateExpected(expected, t.plate.plate),
                  state := IdentityMismatch, outputs := EntryOff(t.outputs)))
      else
        TryAuthorize(cfg, Set(s, t.(identity := IdAccepted, reason := ChannelsMatch,
                                    state := if t.state == IdentityMismatch then Identifying else t.state)))
    case _ => GoManual(s)
  }

  /** The camera is down but overridden: the registry supplies the plate. */
  function TagAlone(cfg: Config, env: Env, s: Eng): (r: Eng)
    requires s.tx.Some?
    ensures r.tx.Some?
  {
    var t := s.tx.value;
    match Resolve(env, t.tag.tag)
    case Mapped(expected) =>
      TryAuthorize(cfg, Set(s, t.(plate := PlateRead(expected, "", Faulty, t.tag.observed),
                                  identity := IdAccepted, reason := PlateDegraded, mode := Degraded)))
    case _ => GoManual(s)
  }

  function EvaluateIdentity(cfg: Config, env: Env, s: Eng): (r: Eng)
    requires s.tx.Some?
    ensures r.tx.Some?
  {
    var t := s.tx.value;
    var tagBad, plateBad := TagBad(s), PlateBad(s);
    if t.state == FaultLockout || t.state == Completed then s
    else if !tagBad && t.tag.tag != "" && !plateBad && t.plate.plate != "" then CrossCheck(cfg, env, s)
    else if tagBad && !plateBad && t.plate.plate != "" && HasOverride(t, Rfid, IdentityConfirmed) then
      TryAuthorize(cfg, Set(s, t.(identity := IdAccepted, reason := TagDegraded, mode := Degraded)))
    else if plateBad && !tagBad && t.tag.tag != "" && HasOverride(t, Lpr, IdentityConfirmed) then TagAlone(cfg, env, s)
    else if tagBad && plateBad then GoManual(s)
    else s
  }

  function TicketFor(cfg: Config, env: Env, t: Tx, a: Audited): PassTicket {
    PassTicket("ticket-" + env.suffix, cfg.station, t.id, t.plate.plate, t.tag.tag,
               Weight(a.reading.kg, a.reading.observed, a.rawRef), t.mode, t.overrides, env.now)
  }

  function CommitTicket(cfg: Config, env: Env, s: Eng, a: Audited): Out
    requires s.tx.Some?
  {
    var t := s.tx.value;
    match env.sink
    case NoStore => Out(Lock(s), false, None)
    case Store(commit) =>
      var ticket := TicketFor(cfg, env, t, a);
      var ok := commit(ticket);
      var s1 := s.(marks := s.marks + [Offered(ticket, ok)]);
      if !ok then Out(Lock(s1), false, Some(ticket))
      else Out(Set(s1, t.(accepted := Some(ticket.weight), ticketID := ticket.id, committedAt := Some(env.now),
                          state := ExitAuthorized, outputs := Outputs(false, true, true, false, true))),
               true, Some(ticket))
  }

  // ---------- the event handlers ----------

  function Start(env: Env, s: Eng, observed: Time): (r: Eng)
    ensures r.tx.Some?
  {
    var t := Tx("tx-" + env.suffix, WhenSeen(observed, env.now), Approach, Normal,
                TagRead("", NoHealth, 0), PlateRead("", "", NoHealth, 0), IdPending, NoReason,
                PosPending, Position(false, false, false, false, false, false, false, false, false, 0), None,
                None, 0, s.faults, [], "", None, false, None, ALL_OFF);
    var s1 := s.(tx := Some(t), marks := [], frames := []);
    if exists d :: d in s.faults && s.faults[d].Locking() then Lock(s1)
    else
      var s2 := UpdateMode(s1);
      Set(s2, s2.tx.value.(state := Identifying))
  }

  function Approaching(cfg: Config, s: Eng): (r: Eng)
    requires s.tx.Some?
    ensures r.tx.Some?
  {
    var t := s.tx.value;
    if t.identity == IdAccepted && (t.state == Approach || t.state == Identifying) then TryAuthorize(cfg, s) else s
  }

  function OnDeck(s: Eng, p: Position): (r: Eng)
    requires s.tx.Some?
    ensures r.tx.Some?
  {
    var t := s.tx.value;
    var s1 := if p.frontPresent && t.state == EntryAuthorized then Set(s, t.(state := Entering)) else s;
    if !p.frontPresent && !p.rearPresent then s1
    else
      var t1 := s1.tx.value;
      var s2 := if t1.state == Entering || t1.state == EntryAuthorized then Set(s1, t1.(state := Positioning)) else s1;
      var s3 := EvaluatePosition(s2);
      if s3.tx.value.position == PosAccepted then TryReady(s3) else s3
  }

  function Leaving(env: Env, s: Eng, p: Position): (r: Eng)
    requires s.tx.Some?
    ensures r.tx.Some?
  {
    var t := s.tx.value;
    var t1 := if t.state == ExitAuthorized && p.exitPresent then t.(exitSeen := true, state := Exiting) else t;
    if t1.state == Exiting && t1.exitSeen && !p.exitPresent
       && (p.safetyClear || HasOverride(t1, ExitSensor, ExitClearConfirmed))
    then Set(s, t1.(completedAt := Some(WhenSeen(p.observed, env.now)), state := Completed, outputs := ALL_OFF))
    else Set(s, t1)
  }

  function OnPosition(cfg: Config, env: Env, s: Eng, p: Position): Eng {
    var s0 := if s.tx.None? && p.entryPresent then Start(env, s, p.observed) else s;
    if s0.tx.None? then s0
    else
      var s1 := Set(s0, s0.tx.value.(pos := p));
      if s1.tx.value.state == Completed || s1.tx.value.state == FaultLockout then s1
      else Leaving(env, OnDeck(Approaching(cfg, s1), p), p)
  }

  predicate Belongs(t: Tx, observed: Time) {
    observed == 0 || observed >= t.startedAt
  }

  /** A frame counted while weighing, up to the point where it may commit. */
  function Weigh(cfg: Config, s: Eng, a: Audited): (r: Eng)
    requires s.tx.Some?
    ensures r.tx.Some?
  {
    var t, r := s.tx.value, a.reading;
    var s1 := s.(frames := s.frames + [a]);
    if !r.stable || r.kg < cfg.minStable then Set(s1, t.(confirmations := 0)).(stableBase := None)
    else if s.stableBase.None? || Abs(s.stableBase.value.reading.kg - r.kg) > cfg.tolerance
    then Set(s1, t.(confirmations := 1)).(stableBase := Some(a))
    else Set(s1, t.(confirmations := t.confirmations + 1)).(stableBase := Some(a))
  }

  /** The scale's latest frame, kept on the engine and on the transaction. */
  function Receive(s: Eng, a: Audited): Eng {
    s.(lastScale := Some(a), tx := if s.tx.None? then None else Some(s.tx.value.(latestScale := Some(a))))
  }

  function ScaleFault(r: Reading): Fault {
    Fault(Scale, r.health, "authoritative scale unhealthy/faulted/overload", false, true)
  }

  function LockOnScale(s: Eng, r: Reading): Eng {
    var f := s.(faults := s.faults[Scale := ScaleFault(r)]);
    if f.tx.None? then f else Lock(SyncFaults(f))
  }

  function EnterWeighing(cfg: Config, s: Eng): (r: Eng)
    requires s.tx.Some?
    ensures r.tx.Some?
  {
    var s1 := TryReady(Approaching(cfg, s));
    var t1 := s1.tx.value;
    if t1.state == ReadyToWeigh then Set(s1, t1.(state := Weighing)) else s1
  }

  function WeighAndCommit(cfg: Config, env: Env, s: Eng, a: Audited): Out
    requires s.tx.Some?
  {
    if s.tx.value.state != Weighing then Out(s, true, None)
    else
      var s1 := Weigh(cfg, s, a);
      var n := s1.tx.value.confirmations;
      if n == 0 || n < cfg.confirmations then Out(s1, true, None) else CommitTicket(cfg, env, s1, a)
  }

  function OnScale(cfg: Config, env: Env, s: Eng, a: Audited): Out {
    if !a.rawRef.Present() then Out(s, false, None)
    else if !a.reading.Sound() then Out(LockOnScale(Receive(s, a), a.reading), true, None)
    else
      var s0 := Receive(s, a);
      var f := s0.(faults := s0.faults - {Scale});
      if f.tx.None? || f.tx.value.state == FaultLockout then Out(f, true, None)
      else if f.tx.value.state == Completed then Out(SyncFaults(f), true, None)
      else WeighAndCommit(cfg, env, EnterWeighing(cfg, SyncFaults(f)), a)
  }

  function AfterFault(cfg: Config, env: Env, s: Eng, d: Device): (r: Eng)
    requires s.tx.Some?
    ensures r.tx.Some?
  {
    EvaluateIdentity(cfg, env, if d == FrontSensor || d == RearSensor then EvaluatePosition(s) else s)
  }

  function OnFault(cfg: Config, env: Env, s: Eng, f: Fault): Eng {
    var s0 := s.(faults := s.faults[f.device := f]);
    if s0.tx.None? then s0
    else
      var s1 := SyncFaults(s0);
      if f.Locking() then Lock(s1)
      else AfterFault(cfg, env, UpdateMode(s1), f.device)
  }

  function OnClear(cfg: Config, env: Env, s: Eng, d: Device): Eng {
    var s0 := s.(faults := s.faults - {d});
    if s0.tx.None? then s0
    else AfterFault(cfg, env, UpdateMode(SyncFaults(s0)), d)
  }

  predicate Grantable(s: Eng, o: Override) {
    && s.tx.Some? && o.txID == s.tx.value.id
    && ValidOverride(o)
    && o.device in s.faults && s.faults[o.device].overridable && !s.faults[o.device].critical
    && Rank(o.authorizedAs) >= Rank(RequiredRole(o.device, |AuxDevices(s.faults)|))
    && !ActiveOverride(s.tx.value, o.device)
  }

  function OnGrant(cfg: Config, env: Env, s: Eng, o: Override): Out {
    if !Grantable(s, o) then Out(s, false, None)
    else
      var dated := if o.authorizedAt == 0 then o.(authorizedAt := env.now) else o;
      var s1 := UpdateMode(Set(s, s.tx.value.(overrides := s.tx.value.overrides + [dated])));
      var s2 := if o.device == FrontSensor || o.device == RearSensor then TryReady(EvaluatePosition(s1)) else s1;
      Out(EvaluateIdentity(cfg, env, s2), true, None)
  }

  function OnReset(s: Eng): Out {
    if s.tx.None? then Out(s, true, None)
    else if s.tx.value.state != Completed then Out(s, false, None)
    else Out(s.(tx := None, stableBase := None), true, None)
  }

  function Step(cfg: Config, env: Env, s: Eng, e: Event): Out {
    match e
    case SeePosition(p) => Out(OnPosition(cfg, env, s, p), true, None)
    case SeeTag(tag) =>
      if s.tx.None? || !Belongs(s.tx.value, tag.observed) then Out(s, true, None)
      else Out(EvaluateIdentity(cfg, env, Set(s, s.tx.value.(tag := tag))), true, None)
    case SeePlate(plate) =>
      if s.tx.None? || !Belongs(s.tx.value, plate.observed) then Out(s, true, None)
      else Out(EvaluateIdentity(cfg, env, Set(s, s.tx.value.(plate := plate))), true, None)
    case SeeScale(a) => OnScale(cfg, env, s, a)
    case SetFault(f) => Out(OnFault(cfg, env, s, f), true, None)
    case ClearFault(d) => Out(OnClear(cfg, env, s, d), true, None)
    case Grant(o) => OnGrant(cfg, env, s, o)
    case Reset => OnReset(s)
  }

  /** A script of events, each with what its handler draws from outside. */
  datatype Timed = Timed(env: Env, event: Event)

  function Run(cfg: Config, s: Eng, script: seq<Timed>): Eng {
    if script == [] then s
    else
      var last := script[|script| - 1];
      Step(cfg, last.env, Run(cfg, s, script[..|script| - 1]), last.event).eng
  }
}
