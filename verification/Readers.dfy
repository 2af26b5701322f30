/**
 A second reader of the operational audit, for everything but state, outputs and faults: what was decided of identity and position, how the
 pass is bound to a cycle, which overrides were authorised, what the cameras, the tag reader and the plate reader saw, which weight was
 accepted and which ticket was issued.
 */
module Readers {
  import opened Domain
  import opened TwoPass
  import opened Recorders

  /** What such a reader knows of the running transaction. */
  datatype Known = Known(
    identity: Identity, reason: IdentityText, positioned: Positioned, pos: Position, binding: Detail,
    overrides: seq<Override>, camera: seq<Camera>, tag: TagRead, plate: PlateRead,
    weight: Option<Weight>, ticketID: string, figures: (int, int, int))

  const NOTHING_KNOWN := Known(
    IdPending, EngineSpec.NoReason, PosPending, Position(false, false, false, false, false, false, false, false, false, 0),
    Binding(NoDirection, 0, "", None, false), [], [], TagRead("", NoHealth, 0), PlateRead("", "", NoHealth, 0), None, "", (0, 0, 0))

  /** What there is to know. */
  function KnownOf(v: View, figures: (int, int, int)): Known {
    Known(v.identity, v.reason, v.position, v.pos, Binding(v.direction, v.passNumber, v.cycleID, v.cycleStatus, v.businessComplete),
          v.overrides, v.camera, v.tag, v.plate, v.accepted, v.ticketID, figures)
  }

  /** One entry read. */
  function Learn(k: Known, e: Entry): Known {
    match e.detail
    case Pass(_, _) => if e.kind == TransactionStarted then NOTHING_KNOWN else k
    case Binding(_, _, _, _, _) =>
      if e.kind == TransactionReset then NOTHING_KNOWN
      else if e.kind == StateTransition && e.source == FromCycle then k.(binding := e.detail)
      else k
    case IdentityIs(identity, reason, _, _) => if e.kind == IdentityDecision then k.(identity := identity, reason := reason) else k
    case PositionIs(positioned, pos) => if e.kind == PositionDecision then k.(positioned := positioned, pos := pos) else k
    case GrantIs(grant) => if e.kind == OverrideAuthorized then k.(overrides := k.overrides + [grant]) else k
    case Shot(camera) => if e.kind == CameraCaptured then k.(camera := k.camera + [camera]) else k
    case TagIs(tag) => if e.kind == RfidObserved && e.source == FromRfid then k.(tag := tag) else k
    case PlateIs(plate) => if e.kind == LprObserved && e.source == FromLpr then k.(plate := plate) else k
    case WeightIs(weight) => if e.kind == StableAccepted && e.source == FromScale then k.(weight := Some(weight)) else k
    case TicketIs(ticketID, gross, tare, net) =>
      if e.kind == TicketCommitted && e.source == FromCycle then k.(ticketID := ticketID, figures := (gross, tare, net)) else k
    case _ => k
  }

  function LearnAll(k: Known, log: seq<Entry>): Known {
    if log == [] then k else Learn(LearnAll(k, log[..|log| - 1]), log[|log| - 1])
  }

  lemma {:induction false} LearnAppends(k: Known, a: seq<Entry>, b: seq<Entry>)
    ensures LearnAll(k, a + b) == LearnAll(LearnAll(k, a), b)
  {
    hide Learn;
    if b == [] {
      assert a + b == a;
    } else {
      var n := |b| - 1;
      LearnAppends(k, a, b[..n]);
      assert (a + b)[..|a + b| - 1] == a + b[..n] && (a + b)[|a + b| - 1] == b[n];
    }
  }

  lemma LearnOne(k: Known, e: Entry)
    ensures LearnAll(k, [e]) == Learn(k, e) && LearnAll(k, []) == k
  {
    assert [e][..0] == [];
  }

  /** An entry that is written only on some condition. */
  function If(cond: bool, e: Entry): seq<Entry> {
    if cond then [e] else []
  }

  lemma LearnIf(k: Known, cond: bool, e: Entry)
    ensures LearnAll(k, If(cond, e)) == if cond then Learn(k, e) else k
  {
    LearnOne(k, e);
  }

  // ---------- what the parts of a difference teach ----------

  /** Nothing in these entries is news to this reader. */
  predicate NoNews(log: seq<Entry>) {
    forall i :: 0 <= i < |log| ==>
      && !log[i].detail.Pass? && !(log[i].detail.Binding? && (log[i].kind == TransactionReset || log[i].source == FromCycle))
      && log[i].kind !in {IdentityDecision, PositionDecision, OverrideAuthorized, CameraCaptured, RfidObserved, LprObserved, StableAccepted,
                          TicketCommitted}
  }

  lemma {:induction false} NoNewsLearned(k: Known, log: seq<Entry>)
    requires NoNews(log)
    ensures LearnAll(k, log) == k
  {
    if log != [] { NoNewsLearned(k, log[..|log| - 1]); }
  }

  lemma OthersAreNoNews(p: View, c: View, first: bool)
    ensures NoNews(StateEntries(p, c, first)) && NoNews(FaultChanges(p, c)) && NoNews(OutputEntries(p, c))
  {
    hide FaultDiff;
  }

  lemma {:induction false} ShotsLearned(k: Known, id: string, shots: seq<Camera>)
    ensures LearnAll(k, CameraEntries(id, shots)) == k.(camera := k.camera + shots)
  {
    if shots != [] {
      var n := |shots| - 1;
      ShotsLearned(k, id, shots[..n]);
      assert CameraEntries(id, shots)[..n] == CameraEntries(id, shots[..n]);
      assert shots == shots[..n] + [shots[n]];
      assert k.camera + shots == (k.camera + shots[..n]) + [shots[n]];
    }
  }

  lemma {:induction false} GrantsLearned(k: Known, id: string, grants: seq<Override>)
    ensures LearnAll(k, GrantEntries(id, grants)) == k.(overrides := k.overrides + grants)
  {
    if grants != [] {
      var n := |grants| - 1;
      GrantsLearned(k, id, grants[..n]);
      assert GrantEntries(id, grants)[..n] == GrantEntries(id, grants[..n]);
      assert grants == grants[..n] + [grants[n]];
      assert k.overrides + grants == (k.overrides + grants[..n]) + [grants[n]];
    }
  }

  /** What a list that was longer before is taken to have grown by. */
  function Grown<T>(before: seq<T>, after: seq<T>): seq<T> {
    if |after| > |before| then before + after[|before|..] else before
  }

  /** A list read by its growth is right exactly when it only grew. */
  lemma GrownExactly<T>(before: seq<T>, after: seq<T>)
    ensures Grown(before, after) == after <==> before <= after
  {
    if before <= after {
      assert after == before + after[|before|..];
    }
  }

  lemma ObservationsLearned(k: Known, p: View, c: View)
    requires k.binding == BindingOf(p) && k.camera == p.camera
    ensures LearnAll(k, ObservationEntries(p, c))
            == k.(binding := BindingOf(c), camera := Grown(p.camera, c.camera),
                  tag := if p.tag != c.tag && c.tag.tag != "" then c.tag else k.tag,
                  plate := if p.plate != c.plate && c.plate.plate != "" then c.plate else k.plate)
  {
    hide LearnAll, CameraEntries, Learn, If;
    var bound, tagRead, plateSeen := Event(c.id, StateTransition, FromCycle, BindingOf(c)), Event(c.id, RfidObserved, FromRfid, TagIs(c.tag)),
                             Event(c.id, LprObserved, FromLpr, PlateIs(c.plate));
    var binds, tagged, plated := BindingOf(p) != BindingOf(c), p.tag != c.tag && c.tag.tag != "", p.plate != c.plate && c.plate.plate != "";
    var x := if |c.camera| > |p.camera| then CameraEntries(c.id, c.camera[|p.camera|..]) else [];
    ObservedInParts(p, c);
    LearnAppends(k, If(binds, bound) + If(tagged, tagRead) + If(plated, plateSeen), x);
    LearnAppends(k, If(binds, bound) + If(tagged, tagRead), If(plated, plateSeen));
    LearnAppends(k, If(binds, bound), If(tagged, tagRead));
    ObservationsTeach(k, c);
    LearnIf(k, binds, bound);
    var k1 := LearnAll(k, If(binds, bound));
    LearnIf(k1, tagged, tagRead);
    ObservationsTeach(k1, c);
    var k2 := LearnAll(k1, If(tagged, tagRead));
    LearnIf(k2, plated, plateSeen);
    ObservationsTeach(k2, c);
    var k3 := LearnAll(k2, If(plated, plateSeen));
    if |c.camera| > |p.camera| { ShotsLearned(k3, c.id, c.camera[|p.camera|..]); } else { NoNewsLearned(k3, []); }
  }

  lemma ObservedInParts(p: View, c: View)
    ensures ObservationEntries(p, c)
            == If(BindingOf(p) != BindingOf(c), Event(c.id, StateTransition, FromCycle, BindingOf(c)))
               + If(p.tag != c.tag && c.tag.tag != "", Event(c.id, RfidObserved, FromRfid, TagIs(c.tag)))
               + If(p.plate != c.plate && c.plate.plate != "", Event(c.id, LprObserved, FromLpr, PlateIs(c.plate)))
               + (if |c.camera| > |p.camera| then CameraEntries(c.id, c.camera[|p.camera|..]) else [])
  {
  }

  lemma ObservationsTeach(k: Known, c: View)
    ensures Learn(k, Event(c.id, StateTransition, FromCycle, BindingOf(c))) == k.(binding := BindingOf(c))
    ensures Learn(k, Event(c.id, RfidObserved, FromRfid, TagIs(c.tag))) == k.(tag := c.tag)
    ensures Learn(k, Event(c.id, LprObserved, FromLpr, PlateIs(c.plate))) == k.(plate := c.plate)
  {
  }

  lemma JudgementsLearned(k: Known, p: View, c: View, first: bool)
    requires !first ==> k.identity == p.identity && k.reason == p.reason && k.positioned == p.position && k.pos == p.pos
    ensures LearnAll(k, JudgementEntries(p, c, first))
            == k.(identity := c.identity, reason := c.reason, positioned := c.position, pos := c.pos)
  {
    hide LearnAll;
    var i := Event(c.id, IdentityDecision, FromWorkflow, IdentityIs(c.identity, c.reason, c.tag.tag, c.plate.plate));
    var o := Event(c.id, PositionDecision, FromWorkflow, PositionIs(c.position, c.pos));
    var judged := if first || p.identity != c.identity || p.reason != c.reason then [i] else [];
    var placed := if first || p.position != c.position || p.pos != c.pos then [o] else [];
    assert JudgementEntries(p, c, first) == judged + placed;
    LearnAppends(k, judged, placed);
    LearnOne(k, i);
    LearnOne(LearnAll(k, judged), o);
  }

  lemma AcceptancesLearned(k: Known, p: View, c: View)
    requires k.overrides == p.overrides
    ensures LearnAll(k, AcceptanceEntries(p, c))
            == k.(overrides := Grown(p.overrides, c.overrides),
                  weight := if p.accepted.None? && c.accepted.Some? then c.accepted else k.weight,
                  ticketID := if p.ticketID == "" && c.ticketID != "" then c.ticketID else k.ticketID,
                  figures := if p.ticketID == "" && c.ticketID != "" then (c.gross, c.tare, c.net) else k.figures)
  {
    hide LearnAll, GrantEntries, Learn, If;
    var g := if |c.overrides| > |p.overrides| then GrantEntries(c.id, c.overrides[|p.overrides|..]) else [];
    var weighed, issued := Weighed(c), Event(c.id, TicketCommitted, FromCycle, TicketIs(c.ticketID, c.gross, c.tare, c.net));
    var weighs, issues := p.accepted.None? && c.accepted.Some?, p.ticketID == "" && c.ticketID != "";
    AcceptedInParts(p, c);
    LearnAppends(k, g + If(weighs, weighed), If(issues, issued));
    LearnAppends(k, g, If(weighs, weighed));
    if |c.overrides| > |p.overrides| { GrantsLearned(k, c.id, c.overrides[|p.overrides|..]); } else { NoNewsLearned(k, []); }
    var k1 := LearnAll(k, g);
    AcceptancesTeach(k1, c);
    LearnIf(k1, weighs, weighed);
    var k2 := LearnAll(k1, If(weighs, weighed));
    AcceptancesTeach(k2, c);
    LearnIf(k2, issues, issued);
  }

  function Weighed(c: View): Entry {
    Event(c.id, StableAccepted, FromScale, if c.accepted.Some? then WeightIs(c.accepted.value) else Nothing)
  }

  lemma AcceptedInParts(p: View, c: View)
    ensures AcceptanceEntries(p, c)
            == (if |c.overrides| > |p.overrides| then GrantEntries(c.id, c.overrides[|p.overrides|..]) else [])
               + If(p.accepted.None? && c.accepted.Some?, Weighed(c))
               + If(p.ticketID == "" && c.ticketID != "",
                    Event(c.id, TicketCommitted, FromCycle, TicketIs(c.ticketID, c.gross, c.tare, c.net)))
  {
  }

  lemma AcceptancesTeach(k: Known, c: View)
    ensures c.accepted.Some? ==> Learn(k, Weighed(c)) == k.(weight := c.accepted)
    ensures Learn(k, Event(c.id, TicketCommitted, FromCycle, TicketIs(c.ticketID, c.gross, c.tare, c.net)))
            == k.(ticketID := c.ticketID, figures := (c.gross, c.tare, c.net))
  {
  }

  /** What the entries of one change leave a reader knowing who knew what was there before. */
  function Updated(k: Known, p: View, c: View): Known {
    Known(c.identity, c.reason, c.position, c.pos, BindingOf(c), Grown(p.overrides, c.overrides), Grown(p.camera, c.camera),
          if p.tag != c.tag && c.tag.tag != "" then c.tag else k.tag,
          if p.plate != c.plate && c.plate.plate != "" then c.plate else k.plate,
          if p.accepted.None? && c.accepted.Some? then c.accepted else k.weight,
          if p.ticketID == "" && c.ticketID != "" then c.ticketID else k.ticketID,
          if p.ticketID == "" && c.ticketID != "" then (c.gross, c.tare, c.net) else k.figures)
  }

  lemma ChangesLearned(k: Known, p: View, c: View, first: bool)
    requires k.binding == BindingOf(p) && k.camera == p.camera && k.overrides == p.overrides
    requires !first ==> k.identity == p.identity && k.reason == p.reason && k.positioned == p.position && k.pos == p.pos
    ensures LearnAll(k, Changes(p, c, first)) == Updated(k, p, c)
  {
    hide LearnAll, StateEntries, ObservationEntries, JudgementEntries, FaultChanges, AcceptanceEntries, OutputEntries, NoNews, Grown;
    var a, b, d := StateEntries(p, c, first), ObservationEntries(p, c), JudgementEntries(p, c, first);
    var f, g, e := FaultChanges(p, c), AcceptanceEntries(p, c), OutputEntries(p, c);
    OthersAreNoNews(p, c, first);
    LearnAppends(k, a + b + d + f + g, e);
    LearnAppends(k, a + b + d + f, g);
    LearnAppends(k, a + b + d, f);
    LearnAppends(k, a + b, d);
    LearnAppends(k, a, b);
    NoNewsLearned(k, a);
    ObservationsLearned(k, p, c);
    var k1 := LearnAll(k, b);
    JudgementsLearned(k1, p, c, first);
    var k2 := LearnAll(k1, d);
    NoNewsLearned(k2, f);
    AcceptancesLearned(k2, p, c);
    NoNewsLearned(LearnAll(k2, g), e);
  }

  // ---------- what is right after one action ----------

  /** The text was replaced by an empty one: what was seen goes unrecorded. */
  predicate Emptied<T(==)>(before: T, after: T, text: string) {
    before != after && text == ""
  }

  /** The entries for one action, read by one who knew what was shown before, tell identity, position and binding as they are shown after,
      always; the overrides and the camera's shots exactly if each list only grew; the tag and the plate exactly if the reading did
      not change to one without text; the accepted weight exactly if none was replaced; and the ticket exactly if none was. */
  lemma ActionLearnedExactly(p: View, c: View, figures: (int, int, int))
    requires p.id == c.id
    ensures var k := LearnAll(KnownOf(p, figures), Diff(Some(p), Some(c)));
            && k.identity == c.identity && k.reason == c.reason && k.positioned == c.position && k.pos == c.pos
            && k.binding == Binding(c.direction, c.passNumber, c.cycleID, c.cycleStatus, c.businessComplete)
            && (k.overrides == c.overrides <==> p.overrides <= c.overrides)
            && (k.camera == c.camera <==> p.camera <= c.camera)
            && (k.tag == c.tag <==> !Emptied(p.tag, c.tag, c.tag.tag))
            && (k.plate == c.plate <==> !Emptied(p.plate, c.plate, c.plate.plate))
            && (k.weight == c.accepted <==> p.accepted.None? || c.accepted == p.accepted)
            && (k.ticketID == c.ticketID <==> p.ticketID == "" || c.ticketID == p.ticketID)
            && (p.ticketID == "" && c.ticketID != "" ==> k.figures == (c.gross, c.tare, c.net))
  {
    hide LearnAll, Changes, Grown;
    ChangesLearned(KnownOf(p, figures), p, c, false);
    GrownExactly(p.overrides, c.overrides);
    GrownExactly(p.camera, c.camera);
  }

  /** The entries of a new transaction tell all there is to know of it, except of a tag or a plate reading without text. */
  lemma StartLearnedExactly(k: Known, c: View)
    ensures var r := LearnAll(k, Diff(None, Some(c)));
            && r.identity == c.identity && r.reason == c.reason && r.positioned == c.position && r.pos == c.pos
            && r.binding == Binding(c.direction, c.passNumber, c.cycleID, c.cycleStatus, c.businessComplete)
            && r.overrides == c.overrides && r.camera == c.camera && r.weight == c.accepted && r.ticketID == c.ticketID
            && (r.tag == c.tag <==> !Emptied(TagRead("", NoHealth, 0), c.tag, c.tag.tag))
            && (r.plate == c.plate <==> !Emptied(PlateRead("", "", NoHealth, 0), c.plate, c.plate.plate))
            && (c.ticketID != "" ==> r.figures == (c.gross, c.tare, c.net))
  {
    hide LearnAll, Changes, Grown;
    var started := Entry(c.id, TransactionStarted, FromWorkflow, None, Some(c.state), Pass(c.direction, c.passNumber));
    LearnAppends(k, [started], Changes(Blank(c), c, true));
    LearnOne(k, started);
    ChangesLearned(NOTHING_KNOWN, Blank(c), c, true);
    GrownExactly([], c.overrides);
    GrownExactly([], c.camera);
  }

  lemma EndLearned(k: Known, p: View)
    ensures LearnAll(k, Diff(Some(p), None)) == NOTHING_KNOWN
  {
    LearnOne(k, Entry(p.id, TransactionReset, FromWorkflow, Some(p.state), Some(Idle), BindingOf(p)));
  }

  // ---------- every entry is true ----------

  /** What the entry says is true of the snapshots before and after the action it was recorded for. */
  predicate Truthful(p: View, c: View, e: Entry) {
    && e.id == c.id
    && match e.detail
       case Nothing => false
       case Pass(direction, number) => e.kind == TransactionStarted && e.new_ == Some(c.state) && direction == c.direction && number == c.passNumber
       case Binding(direction, number, cycleID, status, complete) =>
         && direction == c.direction && number == c.passNumber && cycleID == c.cycleID && status == c.cycleStatus
         && complete == c.businessComplete
         && (e.source == FromWorkflow ==>
               e.old_ == Some(p.state) && e.new_ == Some(c.state) && p.state != c.state && (e.kind == TransactionDone <==> c.state == Completed))
       case TagIs(tag) => e.kind == RfidObserved && tag == c.tag && tag != p.tag
       case PlateIs(plate) => e.kind == LprObserved && plate == c.plate && plate != p.plate
       case Shot(camera) => e.kind == CameraCaptured && camera in c.camera
       case IdentityIs(identity, reason, rfid, lpr) =>
         e.kind == IdentityDecision && identity == c.identity && reason == c.reason && rfid == c.tag.tag && lpr == c.plate.plate
       case PositionIs(positioned, pos) => e.kind == PositionDecision && positioned == c.position && pos == c.pos
       case FaultIs(fault) => e.kind == FaultRaised && fault in c.faults && fault !in p.faults
       case Gone(device, cause) =>
         e.kind == FaultCleared && exists f :: f in p.faults && f !in c.faults && f.device == device && f.reason == cause
       case GrantIs(grant) => e.kind == OverrideAuthorized && grant in c.overrides
       case WeightIs(weight) => e.kind == StableAccepted && c.accepted == Some(weight) && p.accepted.None?
       case TicketIs(ticketID, gross, tare, net) =>
         e.kind == TicketCommitted && ticketID == c.ticketID != "" && (gross, tare, net) == (c.gross, c.tare, c.net) && p.ticketID == ""
       case OutputsAre(before, after) => e.kind == DesiredOutputs && before == p.outputs && after == c.outputs && before != after
  }

  predicate AllTruthful(p: View, c: View, log: seq<Entry>) {
    forall i :: 0 <= i < |log| ==> Truthful(p, c, log[i])
  }

  lemma FaultsTruthful(p: View, c: View)
    ensures AllTruthful(p, c, FaultChanges(p, c))
  {
    hide FaultDiff;
    FaultDiffIsExact(p.faults, c.faults);
    FaultDiffIsExact(c.faults, p.faults);
    var x, y := FaultDiff(p.faults, c.faults), FaultDiff(c.faults, p.faults);
    var all := FaultChanges(p, c);
    forall i | 0 <= i < |all| ensures Truthful(p, c, all[i]) {
      if i < |x| { assert x[i] in x; } else { assert y[i - |x|] in y; }
    }
  }

  lemma StatesTruthful(p: View, c: View, first: bool)
    ensures AllTruthful(p, c, StateEntries(p, c, first)) && AllTruthful(p, c, OutputEntries(p, c))
    ensures AllTruthful(p, c, JudgementEntries(p, c, first))
  {
  }

  lemma ObservationsTruthful(p: View, c: View)
    ensures AllTruthful(p, c, ObservationEntries(p, c))
  {
    hide ObservationEntries, CameraEntries;
    ObservedInParts(p, c);
    if |c.camera| > |p.camera| { ShotsTruthful(p, c); }
  }

  lemma ShotsTruthful(p: View, c: View)
    requires |c.camera| > |p.camera|
    ensures AllTruthful(p, c, CameraEntries(c.id, c.camera[|p.camera|..]))
  {
  }

  lemma AcceptancesTruthful(p: View, c: View)
    ensures AllTruthful(p, c, AcceptanceEntries(p, c))
  {
  }

  /** Every entry of a difference says what is true of the two snapshots, and names the transaction. */
  lemma EntriesAreTrue(prev: Option<View>, c: View)
    requires prev.Some? ==> prev.value.id == c.id
    ensures AllTruthful(if prev.Some? then prev.value else Blank(c), c, Diff(prev, Some(c)))
  {
    hide Truthful, StateEntries, ObservationEntries, JudgementEntries, FaultChanges, AcceptanceEntries, OutputEntries;
    var p := if prev.Some? then prev.value else Blank(c);
    StatesTruthful(p, c, prev.None?);
    ObservationsTruthful(p, c);
    AcceptancesTruthful(p, c);
    FaultsTruthful(p, c);
    StartedTruthful(c);
  }

  lemma StartedTruthful(c: View)
    ensures Truthful(Blank(c), c, Entry(c.id, TransactionStarted, FromWorkflow, None, Some(c.state), Pass(c.direction, c.passNumber)))
  {
  }
}
