/**
 The audit recorder (internal/workflowaudit/recorder.go): every action is bracketed by two snapshots, and their difference goes
 to the operational audit.
 */
module Recorders {
  import opened Domain
  import opened TwoPass

  // ---------- faults by key ----------

  function DeviceName(d: Domain.Device): string {
    match d
    case Scale => "SCALE"
    case Rfid => "RFID"
    case Lpr => "LPR"
    case EntrySensor => "ENTRY_SENSOR"
    case FrontSensor => "FRONT_SENSOR"
    case RearSensor => "REAR_SENSOR"
    case ExitSensor => "EXIT_SENSOR"
    case EntryBarrier => "ENTRY_BARRIER"
    case ExitBarrier => "EXIT_BARRIER"
    case PhysicalSafety => "PHYSICAL_SAFETY"
    case RemoteIO => "REMOTE_IO"
    case AuditStore => "AUDIT_STORE"
  }

  function HealthName(h: Health): string {
    match h
    case NoHealth => ""
    case Healthy => "HEALTHY"
    case Stale => "STALE"
    case Disconnected => "DISCONNECTED"
    case Faulty => "FAULT"
  }

  function BoolName(b: bool): string {
    if b then "true" else "false"
  }

  /** The place of a device in alphabetical order. */
  function DeviceRank(d: Domain.Device): nat {
    match d
    case AuditStore => 0
    case EntryBarrier => 1
    case EntrySensor => 2
    case ExitBarrier => 3
    case ExitSensor => 4
    case FrontSensor => 5
    case Lpr => 6
    case PhysicalSafety => 7
    case RearSensor => 8
    case RemoteIO => 9
    case Rfid => 10
    case Scale => 11
  }

  function FaultKey(f: Fault): string {
    DeviceName(f.device) + ("|" + (HealthName(f.health) + ("|" + ((f.reason + ("|" + BoolName(f.critical))) + ("|" + BoolName(f.overridable))))))
  }

  predicate Barless(s: string) {
    '|' !in s
  }

  /** The first bar splits a string uniquely. */
  lemma FrontSplits(a: string, b: string, x: string, y: string)
    requires Barless(a) && Barless(b) && a + ("|" + x) == b + ("|" + y)
    ensures a == b && x == y
  {
    var s, t := a + ("|" + x), b + ("|" + y);
    assert s[|a|] == '|' && t[|b|] == '|';
    assert a == s[..|a|] && b == t[..|b|];
    assert forall i :: 0 <= i < |b| ==> s[i] == b[i];
    assert forall i :: 0 <= i < |a| ==> t[i] == a[i];
    assert |a| == |b|;
    assert x == s[|a| + 1..] && y == t[|b| + 1..];
  }

  /** So does the last. */
  lemma BackSplits(a: string, b: string, x: string, y: string)
    requires Barless(x) && Barless(y) && a + ("|" + x) == b + ("|" + y)
    ensures a == b && x == y
  {
    var s, t := a + ("|" + x), b + ("|" + y);
    assert s[|a|] == '|' && t[|b|] == '|';
    assert x == s[|a| + 1..] && y == t[|b| + 1..];
    assert forall i :: |a| < i < |s| ==> s[i] in x;
    assert forall i :: |b| < i < |t| ==> t[i] in y;
    assert |a| == |b|;
    assert a == s[..|a|] && b == t[..|b|];
  }

  lemma DeviceNamesDiffer(a: Domain.Device, b: Domain.Device)
    requires DeviceName(a) == DeviceName(b)
    ensures a == b
  {
    var x, y := DeviceName(a), DeviceName(b);
    assert |x| == |y| && x[0] == y[0] && x[1] == y[1] && x[|x| - 2] == y[|y| - 2];
  }

  lemma HealthNamesDiffer(a: Health, b: Health)
    requires HealthName(a) == HealthName(b)
    ensures a == b
  {
    assert |HealthName(a)| == |HealthName(b)|;
    if a != NoHealth && b != NoHealth { assert HealthName(a)[0] == HealthName(b)[0]; }
  }

  lemma BoolNamesDiffer(a: bool, b: bool)
    requires BoolName(a) == BoolName(b)
    ensures a == b
  {
    assert BoolName(a)[0] == BoolName(b)[0];
  }

  lemma NamesAreBarless(f: Fault)
    ensures Barless(DeviceName(f.device)) && Barless(HealthName(f.health)) && Barless(BoolName(f.critical)) && Barless(BoolName(f.overridable))
  {
  }

  /** A key stands for one fault, even when reasons contain bars. */
  lemma KeysAreFaults(f: Fault, g: Fault)
    requires FaultKey(f) == FaultKey(g)
    ensures f == g
  {
    hide DeviceName, HealthName, BoolName, Barless;
    NamesAreBarless(f);
    NamesAreBarless(g);
    var f3 := f.reason + ("|" + BoolName(f.critical));
    var g3 := g.reason + ("|" + BoolName(g.critical));
    FrontSplits(DeviceName(f.device), DeviceName(g.device),
                HealthName(f.health) + ("|" + (f3 + ("|" + BoolName(f.overridable)))),
                HealthName(g.health) + ("|" + (g3 + ("|" + BoolName(g.overridable)))));
    FrontSplits(HealthName(f.health), HealthName(g.health), f3 + ("|" + BoolName(f.overridable)), g3 + ("|" + BoolName(g.overridable)));
    BackSplits(f3, g3, BoolName(f.overridable), BoolName(g.overridable));
    BackSplits(f.reason, g.reason, BoolName(f.critical), BoolName(g.critical));
    DeviceNamesDiffer(f.device, g.device);
    HealthNamesDiffer(f.health, g.health);
    BoolNamesDiffer(f.critical, g.critical);
    BoolNamesDiffer(f.overridable, g.overridable);
  }

  /** The faults of compare that are not in base, in the order of compare. */
  function Missing(base: seq<Fault>, compare: seq<Fault>): seq<Fault> {
    if compare == [] then []
    else
      var n := |compare| - 1;
      Missing(base, compare[..n]) + if compare[n] in base then [] else [compare[n]]
  }

  function Insert(s: seq<Fault>, f: Fault): seq<Fault> {
    if s == [] || DeviceRank(s[|s| - 1].device) <= DeviceRank(f.device) then s + [f]
    else Insert(s[..|s| - 1], f) + [s[|s| - 1]]
  }

  function Sort(s: seq<Fault>): seq<Fault> {
    if s == [] then [] else Insert(Sort(s[..|s| - 1]), s[|s| - 1])
  }

  predicate Sorted(s: seq<Fault>) {
    forall i, j :: 0 <= i < j < |s| ==> DeviceRank(s[i].device) <= DeviceRank(s[j].device)
  }

  lemma {:induction false} InsertHolds(s: seq<Fault>, f: Fault)
    ensures multiset(Insert(s, f)) == multiset(s) + multiset{f}
  {
    if s == [] || DeviceRank(s[|s| - 1].device) <= DeviceRank(f.device) {
    } else {
      var n := |s| - 1;
      InsertHolds(s[..n], f);
      assert s == s[..n] + [s[n]];
    }
  }

  lemma SortedSnoc(s: seq<Fault>, f: Fault)
    requires Sorted(s) && forall i :: 0 <= i < |s| ==> DeviceRank(s[i].device) <= DeviceRank(f.device)
    ensures Sorted(s + [f])
  {
    hide DeviceRank;
  }

  lemma SortedInit(s: seq<Fault>)
    requires Sorted(s) && s != []
    ensures Sorted(s[..|s| - 1]) && forall i :: 0 <= i < |s| ==> DeviceRank(s[i].device) <= DeviceRank(s[|s| - 1].device)
  {
    hide DeviceRank;
  }

  lemma {:induction false} InsertIsExact(s: seq<Fault>, f: Fault)
    requires Sorted(s)
    ensures Sorted(Insert(s, f)) && multiset(Insert(s, f)) == multiset(s) + multiset{f}
  {
    hide DeviceRank, Sorted;
    InsertHolds(s, f);
    if s == [] {
      SortedSnoc(s, f);
    } else {
      SortedInit(s);
      var n := |s| - 1;
      if DeviceRank(s[n].device) <= DeviceRank(f.device) {
        SortedSnoc(s, f);
      } else {
        InsertIsExact(s[..n], f);
        var r := Insert(s[..n], f);
        forall i | 0 <= i < |r| ensures DeviceRank(r[i].device) <= DeviceRank(s[n].device) {
          assert r[i] in multiset(r);
          assert r[i] in s[..n] || r[i] == f;
        }
        SortedSnoc(r, s[n]);
      }
    }
  }

  lemma {:induction false} SortIsExact(s: seq<Fault>)
    ensures Sorted(Sort(s)) && multiset(Sort(s)) == multiset(s)
  {
    if s != [] {
      var n := |s| - 1;
      SortIsExact(s[..n]);
      InsertIsExact(Sort(s[..n]), s[n]);
      assert s == s[..n] + [s[n]];
    }
  }

  lemma {:induction false} MissingIsExact(base: seq<Fault>, compare: seq<Fault>)
    ensures forall f {:trigger f in Missing(base, compare)} :: f in Missing(base, compare) <==> f in compare && f !in base
  {
    if compare != [] {
      var n := |compare| - 1;
      MissingIsExact(base, compare[..n]);
      assert compare == compare[..n] + [compare[n]];
      forall f ensures f in Missing(base, compare) <==> f in compare && f !in base {
        assert f in compare <==> f in compare[..n] || f == compare[n];
        assert f in Missing(base, compare[..n]) <==> f in compare[..n] && f !in base;
      }
    }
  }

  function FaultDiff(base: seq<Fault>, compare: seq<Fault>): seq<Fault> {
    Sort(Missing(base, compare))
  }

  lemma FaultDiffIsExact(base: seq<Fault>, compare: seq<Fault>)
    ensures forall f {:trigger f in FaultDiff(base, compare)} :: f in FaultDiff(base, compare) <==> f in compare && f !in base
    ensures Sorted(FaultDiff(base, compare))
  {
    MissingIsExact(base, compare);
    SortIsExact(Missing(base, compare));
    var m, d := Missing(base, compare), FaultDiff(base, compare);
    forall f ensures f in d <==> f in m {
      assert f in d <==> f in multiset(d);
      assert f in m <==> f in multiset(m);
    }
  }

  /** The faults after are the faults before, less those cleared, plus those set. */
  lemma FaultsReplay(before: seq<Fault>, after: seq<Fault>)
    ensures var added, removed := FaultDiff(before, after), FaultDiff(after, before);
            forall f {:trigger f in after} :: f in after <==> (f in before && f !in removed) || f in added
  {
    FaultDiffIsExact(before, after);
    FaultDiffIsExact(after, before);
    forall f ensures f in after <==> (f in before && f !in FaultDiff(after, before)) || f in FaultDiff(before, after) {
      assert f in FaultDiff(before, after) <==> f in after && f !in before;
      assert f in FaultDiff(after, before) <==> f in before && f !in after;
    }
  }

  lemma {:induction false} NothingMissing(base: seq<Fault>, compare: seq<Fault>)
    requires forall f :: f in compare ==> f in base
    ensures Missing(base, compare) == []
  {
    if compare != [] { NothingMissing(base, compare[..|compare| - 1]); }
  }

  lemma NoFaultChanges(faults: seq<Fault>)
    ensures FaultDiff(faults, faults) == []
  {
    NothingMissing(faults, faults);
  }

  /** By keys, as the source does it. */
  method DiffFaults(base: seq<Fault>, compare: seq<Fault>) returns (out: seq<Fault>)
    ensures out == FaultDiff(base, compare)
  {
    var seen: set<string> := {};
    for i := 0 to |base|
      invariant forall f {:trigger FaultKey(f)} :: FaultKey(f) in seen <==> f in base[..i]
    {
      assert base[..i + 1] == base[..i] + [base[i]];
      forall f ensures FaultKey(f) in seen + {FaultKey(base[i])} <==> f in base[..i + 1] {
        if FaultKey(f) == FaultKey(base[i]) { KeysAreFaults(f, base[i]); }
      }
      seen := seen + {FaultKey(base[i])};
    }
    assert base[..|base|] == base;
    out := [];
    for i := 0 to |compare|
      invariant out == Missing(base, compare[..i])
    {
      assert compare[..i + 1][..i] == compare[..i];
      if FaultKey(compare[i]) !in seen { out := out + [compare[i]]; }
    }
    assert compare[..|compare|] == compare;
    out := Sort(out);
  }

  // ---------- the difference of two snapshots ----------

  datatype Kind =
    | TransactionStarted | StateTransition | TransactionDone | TransactionReset | RfidObserved | LprObserved | CameraCaptured
    | IdentityDecision | PositionDecision | FaultRaised | FaultCleared | OverrideAuthorized | StableAccepted | TicketCommitted
    | DesiredOutputs

  datatype Source = FromWorkflow | FromCycle | FromRfid | FromLpr | FromCamera | FromScale

  datatype Detail =
    | Nothing
    | Pass(direction: Direction, number: nat)
    | Binding(dir: Direction, passNumber: nat, cycleID: string, status: Option<CycleStatus>, complete: bool)
    | TagIs(tag: TagRead)
    | PlateIs(plate: PlateRead)
    | Shot(camera: Camera)
    | IdentityIs(identity: Identity, reason: IdentityText, rfid: string, lpr: string)
    | PositionIs(positioned: Positioned, pos: Position)
    | FaultIs(fault: Fault)
    | Gone(device: Domain.Device, cause: string)
    | GrantIs(grant: Override)
    | WeightIs(weight: Weight)
    | TicketIs(ticketID: string, gross: int, tare: int, net: int)
    | OutputsAre(before: Outputs, after: Outputs)

  type IdentityText = EngineSpec.IdentityReason
  import EngineSpec

  datatype Entry = Entry(id: string, kind: Kind, source: Source, old_: Option<State>, new_: Option<State>, detail: Detail)

  function Event(id: string, kind: Kind, source: Source, detail: Detail): Entry {
    Entry(id, kind, source, None, None, detail)
  }

  /** A transaction of which only the identifier is known; `first` marks it where the source has empty strings. */
  function Blank(v: View): View {
    v.(direction := NoDirection, passNumber := 0, cycleID := "", cycleStatus := None, businessComplete := false,
       tag := TagRead("", NoHealth, 0), plate := PlateRead("", "", NoHealth, 0), camera := [],
       pos := Position(false, false, false, false, false, false, false, false, false, 0),
       faults := [], overrides := [], accepted := None, ticketID := "", outputs := ALL_OFF)
  }

  function BindingOf(v: View): Detail {
    Binding(v.direction, v.passNumber, v.cycleID, v.cycleStatus, v.businessComplete)
  }

  function StateEntries(p: View, c: View, first: bool): seq<Entry> {
    if first || p.state == c.state then []
    else [Entry(c.id, if c.state == Completed then TransactionDone else StateTransition, FromWorkflow,
                Some(p.state), Some(c.state), BindingOf(c))]
  }

  function ObservationEntries(p: View, c: View): seq<Entry> {
    (if BindingOf(p) != BindingOf(c) then [Event(c.id, StateTransition, FromCycle, BindingOf(c))] else [])
    + (if p.tag != c.tag && c.tag.tag != "" then [Event(c.id, RfidObserved, FromRfid, TagIs(c.tag))] else [])
    + (if p.plate != c.plate && c.plate.plate != "" then [Event(c.id, LprObserved, FromLpr, PlateIs(c.plate))] else [])
    + (if |c.camera| > |p.camera| then CameraEntries(c.id, c.camera[|p.camera|..]) else [])
  }

  function CameraEntries(id: string, shots: seq<Camera>): seq<Entry> {
    seq(|shots|, i requires 0 <= i < |shots| => Event(id, CameraCaptured, FromCamera, Shot(shots[i])))
  }

  function RaisedEntries(id: string, faults: seq<Fault>): seq<Entry> {
    seq(|faults|, i requires 0 <= i < |faults| => Event(id, FaultRaised, FromWorkflow, FaultIs(faults[i])))
  }

  /** A fault that is gone is recorded by device and reason alone. */
  function ClearedEntries(id: string, faults: seq<Fault>): seq<Entry> {
    seq(|faults|, i requires 0 <= i < |faults| => Event(id, FaultCleared, FromWorkflow, Gone(faults[i].device, faults[i].reason)))
  }

  function GrantEntries(id: string, grants: seq<Override>): seq<Entry> {
    seq(|grants|, i requires 0 <= i < |grants| => Event(id, OverrideAuthorized, FromWorkflow, GrantIs(grants[i])))
  }

  function JudgementEntries(p: View, c: View, first: bool): seq<Entry> {
    (if first || p.identity != c.identity || p.reason != c.reason
     then [Event(c.id, IdentityDecision, FromWorkflow, IdentityIs(c.identity, c.reason, c.tag.tag, c.plate.plate))] else [])
    + (if first || p.position != c.position || p.pos != c.pos
       then [Event(c.id, PositionDecision, FromWorkflow, PositionIs(c.position, c.pos))] else [])
  }

  /** What was set comes before what was cleared. */
  function FaultChanges(p: View, c: View): seq<Entry> {
    RaisedEntries(c.id, FaultDiff(p.faults, c.faults)) + ClearedEntries(c.id, FaultDiff(c.faults, p.faults))
  }

  function AcceptanceEntries(p: View, c: View): seq<Entry> {
    (if |c.overrides| > |p.overrides| then GrantEntries(c.id, c.overrides[|p.overrides|..]) else [])
    + (if p.accepted.None? && c.accepted.Some? then [Event(c.id, StableAccepted, FromScale, WeightIs(c.accepted.value))] else [])
    + (if p.ticketID == "" && c.ticketID != ""
       then [Event(c.id, TicketCommitted, FromCycle, TicketIs(c.ticketID, c.gross, c.tare, c.net))] else [])
  }

  function OutputEntries(p: View, c: View): seq<Entry> {
    if p.outputs == c.outputs then [] else [Event(c.id, DesiredOutputs, FromWorkflow, OutputsAre(p.outputs, c.outputs))]
  }

  function Changes(p: View, c: View, first: bool): seq<Entry> {
    StateEntries(p, c, first) + ObservationEntries(p, c) + JudgementEntries(p, c, first) + FaultChanges(p, c) + AcceptanceEntries(p, c)
    + OutputEntries(p, c)
  }

  function Diff(prev: Option<View>, cur: Option<View>): seq<Entry> {
    match (prev, cur)
    case (None, None) => []
    case (Some(p), None) => [Entry(p.id, TransactionReset, FromWorkflow, Some(p.state), Some(Idle), BindingOf(p))]
    case (None, Some(c)) =>
      [Entry(c.id, TransactionStarted, FromWorkflow, None, Some(c.state), Pass(c.direction, c.passNumber))] + Changes(Blank(c), c, true)
    case (Some(p), Some(c)) => if p.id != c.id then [] else Changes(p, c, false)
  }

  // ---------- replaying the log ----------

  datatype Shown = Shown(id: string, state: State, outputs: Outputs)

  function Show(v: Option<View>): Option<Shown> {
    if v.None? then None else Some(Shown(v.value.id, v.value.state, v.value.outputs))
  }

  /** What a reader of the log who follows only the workflow's own entries makes of one. */
  function Read(s: Option<Shown>, e: Entry): Option<Shown> {
    if e.source != FromWorkflow then s
    else
      match e.kind
      case TransactionStarted => if e.new_.Some? then Some(Shown(e.id, e.new_.value, ALL_OFF)) else s
      case TransactionReset => None
      case StateTransition => Entered(s, e)
      case TransactionDone => Entered(s, e)
      case DesiredOutputs => if s.Some? && e.detail.OutputsAre? then Some(s.value.(outputs := e.detail.after)) else s
      case _ => s
  }

  function Entered(s: Option<Shown>, e: Entry): Option<Shown> {
    if s.Some? && e.new_.Some? then Some(s.value.(state := e.new_.value)) else s
  }

  function Replay(s: Option<Shown>, log: seq<Entry>): Option<Shown> {
    if log == [] then s else Read(Replay(s, log[..|log| - 1]), log[|log| - 1])
  }

  lemma {:induction false} ReplayAppends(s: Option<Shown>, a: seq<Entry>, b: seq<Entry>)
    ensures Replay(s, a + b) == Replay(Replay(s, a), b)
  {
    if b == [] {
      assert a + b == a;
    } else {
      var n := |b| - 1;
      ReplayAppends(s, a, b[..n]);
      assert (a + b)[..|a + b| - 1] == a + b[..n] && (a + b)[|a + b| - 1] == b[n];
    }
  }

  /** An entry the reader passes over. */
  predicate Skipped(e: Entry) {
    e.source != FromWorkflow
    || !(e.kind == TransactionStarted || e.kind == TransactionReset || e.kind == StateTransition || e.kind == TransactionDone
         || e.kind == DesiredOutputs)
  }

  predicate AllSkipped(log: seq<Entry>) {
    forall i :: 0 <= i < |log| ==> Skipped(log[i])
  }

  lemma {:induction false} SkippedReplay(s: Option<Shown>, log: seq<Entry>)
    requires AllSkipped(log)
    ensures Replay(s, log) == s
  {
    if log != [] { SkippedReplay(s, log[..|log| - 1]); }
  }

  lemma OthersAreSkipped(p: View, c: View, first: bool)
    ensures AllSkipped(ObservationEntries(p, c)) && AllSkipped(JudgementEntries(p, c, first)) && AllSkipped(FaultChanges(p, c))
    ensures AllSkipped(AcceptanceEntries(p, c))
  {
    hide FaultDiff;
  }

  lemma {:induction false} SkippedBetween(s: Option<Shown>, a: seq<Entry>, b: seq<Entry>)
    requires AllSkipped(b)
    ensures Replay(s, a + b) == Replay(s, a)
  {
    ReplayAppends(s, a, b);
    SkippedReplay(Replay(s, a), b);
  }

  /** The entries for a change turn the state and outputs before into those after. */
  lemma ChangesReplay(p: View, c: View, first: bool)
    requires p.id == c.id && (first ==> p.state == c.state)
    ensures Replay(Show(Some(p)), Changes(p, c, first)) == Show(Some(c))
  {
    hide ObservationEntries, JudgementEntries, FaultChanges, AcceptanceEntries, AllSkipped;
    var s := Show(Some(p));
    var a, b, d := StateEntries(p, c, first), ObservationEntries(p, c), JudgementEntries(p, c, first);
    var f, g, e := FaultChanges(p, c), AcceptanceEntries(p, c), OutputEntries(p, c);
    OthersAreSkipped(p, c, first);
    ReplayAppends(s, a + b + d + f + g, e);
    SkippedBetween(s, a + b + d + f, g);
    SkippedBetween(s, a + b + d, f);
    SkippedBetween(s, a + b, d);
    SkippedBetween(s, a, b);
    assert a != [] ==> a[..|a| - 1] == [];
    assert Replay(s, a) == Some(Shown(p.id, c.state, p.outputs));
    assert e != [] ==> e[..|e| - 1] == [];
  }

  /** Reading the recorded difference over what was shown before gives what is shown after, if and only if the action did not
      swap one transaction directly for another. */
  lemma DiffReplaysExactly(prev: Option<View>, cur: Option<View>)
    ensures Replay(Show(prev), Diff(prev, cur)) == Show(cur) <==> !(prev.Some? && cur.Some? && prev.value.id != cur.value.id)
  {
    match (prev, cur)
    case (None, None) =>
    case (Some(p), None) => ReplayAppends(Show(prev), [], Diff(prev, cur));
    case (None, Some(c)) =>
      var started := Entry(c.id, TransactionStarted, FromWorkflow, None, Some(c.state), Pass(c.direction, c.passNumber));
      ReplayAppends(Show(prev), [started], Changes(Blank(c), c, true));
      assert [started][..0] == [] && Replay(Show(prev), [started]) == Show(Some(Blank(c)));
      ChangesReplay(Blank(c), c, true);
    case (Some(p), Some(c)) => if p.id == c.id { ChangesReplay(p, c, false); }
  }

  // ---------- replaying the faults ----------

  function FaultsOf(v: Option<View>): set<Fault> {
    if v.None? then {} else Set(v.value.faults)
  }

  function Set(faults: seq<Fault>): set<Fault> {
    set f | f in faults
  }

  function Without(s: set<Fault>, d: Domain.Device, reason: string): set<Fault> {
    set f | f in s && !(f.device == d && f.reason == reason)
  }

  /** What a reader of the log makes of one entry who wants to know which faults stand. */
  function ReadFaults(s: set<Fault>, e: Entry): set<Fault> {
    if e.source != FromWorkflow then s
    else
      match e.kind
      case TransactionStarted => {}
      case TransactionReset => {}
      case FaultRaised => if e.detail.FaultIs? then s + {e.detail.fault} else s
      case FaultCleared => if e.detail.Gone? then Without(s, e.detail.device, e.detail.cause) else s
      case _ => s
  }

  function ReplayFaults(s: set<Fault>, log: seq<Entry>): set<Fault> {
    if log == [] then s else ReadFaults(ReplayFaults(s, log[..|log| - 1]), log[|log| - 1])
  }

  lemma {:induction false} ReplayFaultsAppends(s: set<Fault>, a: seq<Entry>, b: seq<Entry>)
    ensures ReplayFaults(s, a + b) == ReplayFaults(ReplayFaults(s, a), b)
  {
    if b == [] {
      assert a + b == a;
    } else {
      var n := |b| - 1;
      ReplayFaultsAppends(s, a, b[..n]);
      assert (a + b)[..|a + b| - 1] == a + b[..n] && (a + b)[|a + b| - 1] == b[n];
    }
  }

  predicate Faultless(log: seq<Entry>) {
    forall i :: 0 <= i < |log| ==>
      log[i].source != FromWorkflow || log[i].kind !in {TransactionStarted, TransactionReset, FaultRaised, FaultCleared}
  }

  lemma {:induction false} FaultlessBetween(s: set<Fault>, a: seq<Entry>, b: seq<Entry>)
    requires Faultless(b)
    ensures ReplayFaults(s, a + b) == ReplayFaults(s, a)
    decreases |b|
  {
    if b == [] {
      assert a + b == a;
    } else {
      var n := |b| - 1;
      FaultlessBetween(s, a, b[..n]);
      assert (a + b)[..|a + b| - 1] == a + b[..n] && (a + b)[|a + b| - 1] == b[n];
    }
  }

  lemma {:induction false} RaisedReplay(s: set<Fault>, id: string, faults: seq<Fault>)
    ensures ReplayFaults(s, RaisedEntries(id, faults)) == s + Set(faults)
  {
    if faults != [] {
      var n := |faults| - 1;
      RaisedReplay(s, id, faults[..n]);
      assert RaisedEntries(id, faults)[..n] == RaisedEntries(id, faults[..n]);
      assert faults == faults[..n] + [faults[n]];
    }
  }

  /** A fault of the same device with the same reason is in the list. */
  predicate Named(faults: seq<Fault>, f: Fault) {
    exists g :: g in faults && g.device == f.device && g.reason == f.reason
  }

  lemma NamedAppends(faults: seq<Fault>, last: Fault, f: Fault)
    ensures Named(faults + [last], f) <==> Named(faults, f) || (last.device == f.device && last.reason == f.reason)
  {
    assert last in faults + [last];
    if g :| g in faults && g.device == f.device && g.reason == f.reason { assert g in faults + [last]; }
  }

  lemma ClearedInit(id: string, faults: seq<Fault>, last: Fault)
    ensures ClearedEntries(id, faults + [last])
            == ClearedEntries(id, faults) + [Event(id, FaultCleared, FromWorkflow, Gone(last.device, last.reason))]
  {
  }

  function Unnamed(s: set<Fault>, faults: seq<Fault>): set<Fault> {
    set f | f in s && !Named(faults, f)
  }

  lemma UnnamedAppends(s: set<Fault>, faults: seq<Fault>, last: Fault)
    ensures Unnamed(s, faults + [last]) == Without(Unnamed(s, faults), last.device, last.reason)
  {
    hide Named;
    forall f { NamedAppends(faults, last, f); }
  }

  lemma {:induction false} ClearedReplay(s: set<Fault>, id: string, faults: seq<Fault>)
    ensures ReplayFaults(s, ClearedEntries(id, faults)) == Unnamed(s, faults)
  {
    if faults != [] {
      hide ClearedEntries, Unnamed, Without;
      var n := |faults| - 1;
      assert faults == faults[..n] + [faults[n]];
      ClearedReplay(s, id, faults[..n]);
      ClearedInit(id, faults[..n], faults[n]);
      UnnamedAppends(s, faults[..n], faults[n]);
    }
  }

  /** A fault that stands is masked by one that is gone: same device, same reason, different otherwise. */
  predicate Masks(p: Option<View>, c: Option<View>) {
    exists f, g :: f in FaultsOf(c) && g in FaultsOf(p) && g !in FaultsOf(c) && g.device == f.device && g.reason == f.reason
  }

  /** Read as fault entries, the entries for one action leave exactly these. */
  lemma ChangesReplayFaults(s: set<Fault>, p: View, c: View, first: bool)
    ensures ReplayFaults(s, Changes(p, c, first))
            == Unnamed(s + Set(FaultDiff(p.faults, c.faults)), FaultDiff(c.faults, p.faults))
  {
    hide ObservationEntries, JudgementEntries, AcceptanceEntries, RaisedEntries, ClearedEntries, FaultDiff, Faultless, Unnamed;
    var a, b, d := StateEntries(p, c, first), ObservationEntries(p, c), JudgementEntries(p, c, first);
    var x, y := RaisedEntries(c.id, FaultDiff(p.faults, c.faults)), ClearedEntries(c.id, FaultDiff(c.faults, p.faults));
    var g, e := AcceptanceEntries(p, c), OutputEntries(p, c);
    OthersAreFaultless(p, c, first);
    FaultlessBetween(s, a + b + d + (x + y) + g, e);
    FaultlessBetween(s, a + b + d + (x + y), g);
    ReplayFaultsAppends(s, a + b + d, x + y);
    FaultlessBetween(s, a + b, d);
    FaultlessBetween(s, a, b);
    FaultlessBetween(s, [], a);
    assert [] + a == a && ReplayFaults(s, []) == s;
    ReplayFaultsAppends(s, x, y);
    RaisedReplay(s, c.id, FaultDiff(p.faults, c.faults));
    ClearedReplay(ReplayFaults(s, x), c.id, FaultDiff(c.faults, p.faults));
  }

  lemma OthersAreFaultless(p: View, c: View, first: bool)
    ensures Faultless(StateEntries(p, c, first)) && Faultless(ObservationEntries(p, c)) && Faultless(JudgementEntries(p, c, first))
    ensures Faultless(AcceptanceEntries(p, c)) && Faultless(OutputEntries(p, c))
  {
  }

  /** What the entries leave is what stands, unless one that is gone masks one that stands. */
  lemma UnnamedExactly(p: View, c: View)
    ensures Unnamed(FaultsOf(Some(p)) + Set(FaultDiff(p.faults, c.faults)), FaultDiff(c.faults, p.faults)) == FaultsOf(Some(c))
            <==> !Masks(Some(p), Some(c))
  {
    hide FaultDiff;
    FaultDiffIsExact(p.faults, c.faults);
    FaultDiffIsExact(c.faults, p.faults);
    var all := FaultsOf(Some(p)) + Set(FaultDiff(p.faults, c.faults));
    var gone := FaultDiff(c.faults, p.faults);
    assert forall f :: f in all <==> f in p.faults || f in c.faults;
    assert forall f :: f in gone <==> f in p.faults && f !in c.faults;
    if Masks(Some(p), Some(c)) {
      var f, g :| f in FaultsOf(Some(c)) && g in FaultsOf(Some(p)) && g !in FaultsOf(Some(c)) && g.device == f.device && g.reason == f.reason;
      assert Named(gone, f);
      assert f !in Unnamed(all, gone);
    } else {
      forall f ensures f in Unnamed(all, gone) <==> f in c.faults {
        if f in gone { assert Named(gone, f); }
      }
    }
  }

  /** One action's entries, read for faults, turn the faults before into the faults after if and only if the action cleared no
      fault that has device and reason in common with one that stands afterwards. */
  lemma FaultsReplayExactly(prev: Option<View>, cur: Option<View>)
    requires prev.Some? && cur.Some? ==> prev.value.id == cur.value.id
    ensures ReplayFaults(FaultsOf(prev), Diff(prev, cur)) == FaultsOf(cur) <==> !Masks(prev, cur)
  {
    hide Changes, Masks;
    match (prev, cur)
    case (None, None) => NothingMasks(prev, cur);
    case (Some(p), None) =>
      NothingMasks(prev, cur);
      assert Diff(prev, cur)[..0] == [];
    case (None, Some(c)) =>
      var started := Entry(c.id, TransactionStarted, FromWorkflow, None, Some(c.state), Pass(c.direction, c.passNumber));
      ReplayFaultsAppends({}, [started], Changes(Blank(c), c, true));
      assert [started][..0] == [];
      ChangesReplayFaults({}, Blank(c), c, true);
      UnnamedExactly(Blank(c), c);
      assert FaultsOf(Some(Blank(c))) == {};
      NothingMasks(prev, cur);
      NothingMasks(Some(Blank(c)), cur);
    case (Some(p), Some(c)) =>
      ChangesReplayFaults(FaultsOf(prev), p, c, false);
      UnnamedExactly(p, c);
  }

  lemma NothingMasks(prev: Option<View>, cur: Option<View>)
    requires FaultsOf(prev) == {} || FaultsOf(cur) == {}
    ensures !Masks(prev, cur)
  {
  }
}
