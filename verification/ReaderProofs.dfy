/**
 The second reader over whole runs: what it always knows, and exactly when it loses the tag, the plate, the weight or the ticket.
 */
module ReaderProofs {
  import opened Domain
  import opened EngineSpec
  import opened EngineTheorems
  import opened EngineLaws
  import O = EngineOverrides
  import Coordination
  import opened TwoPass
  import opened TwoPassProofs
  import opened RecorderProofs
  import F = FaultLogs
  import R = Recorders
  import opened Readers

  // ---------- overrides and shots are only added ----------

  /** What an event adds to the overrides: the one granted, dated now if it came without a date. */
  function Given(env: Env, s: Eng, e: Event): seq<Override>
    requires s.tx.Some?
  {
    if e.Grant? && Grantable(s, e.o)
    then [Override(e.o.txID, e.o.device, e.o.reason, e.o.requestedBy, e.o.authorizedBy, e.o.authorizedAs,
                   if e.o.authorizedAt == 0 then env.now else e.o.authorizedAt, e.o.evidence, e.o.expiredAt)]
    else []
  }

  lemma PreparingGives(cfg: Config, env: Env, s: Eng, e: Event)
    requires s.tx.Some?
    ensures var at := AtIdentity(cfg, env, s, e);
            if at.Some? then at.value.tx.value.overrides == s.tx.value.overrides + Given(env, s, e) else Given(env, s, e) == []
  {
    hide EvaluatePosition, TryReady, UpdateMode, Grantable;
    match e
    case SetFault(f) => RefaultedGives(cfg, s, s.faults[f.device := f]);
    case ClearFault(d) => RefaultedGives(cfg, s, s.faults - {d});
    case Grant(o) =>
      var dated := if o.authorizedAt == 0 then o.(authorizedAt := env.now) else o;
      O.HelpersUntouched(cfg, Set(s, s.tx.value.(overrides := s.tx.value.overrides + [dated])));
      O.HelpersUntouched(cfg, Granted(env, s, o));
      O.HelpersUntouched(cfg, EvaluatePosition(Granted(env, s, o)));
    case _ =>
  }

  lemma RefaultedGives(cfg: Config, s: Eng, faults: map<Domain.Device, Fault>)
    requires s.tx.Some?
    ensures var s1 := Refaulted(s, faults);
            s1.tx.value.overrides == s.tx.value.overrides && EvaluatePosition(s1).tx.value.overrides == s.tx.value.overrides
  {
    hide EvaluatePosition, UpdateMode;
    O.HelpersUntouched(cfg, SyncFaults(s.(faults := faults)));
    O.HelpersUntouched(cfg, Refaulted(s, faults));
  }

  /** Within a transaction the overrides change only by the one that is granted. */
  lemma OverridesGrow(cfg: Config, env: Env, s: Eng, e: Event)
    requires s.tx.Some? && e != Reset
    ensures var r := Step(cfg, env, s, e).eng; r.tx.Some? && r.tx.value.overrides == s.tx.value.overrides + Given(env, s, e)
  {
    hide OnPosition, OnScale, EvaluateIdentity, AtIdentity, Grantable;
    if e.SeePosition? {
      O.PositionUntouched(cfg, env, s, e.p);
    } else if e.SeeScale? {
      O.ScaleUntouched(cfg, env, s, e.a);
    } else {
      StepAtIdentity(cfg, env, s, e);
      PreparingGives(cfg, env, s, e);
      var at := AtIdentity(cfg, env, s, e);
      if at.Some? { IdentityKeepsDeck(cfg, env, at.value); }
    }
  }

  /** What an action adds to the shots of the running transaction. */
  function Shown(w: World, e: WorldEvent): seq<Camera>
    requires w.eng.tx.Some?
  {
    if e.CameraShot? && w.eng.tx.value.state != Completed && w.eng.tx.value.id != "" && e.c.cameraID != "" && e.c.imageRef != ""
    then [e.c] else []
  }

  lemma FeedKeepsShots(set_: Settings, o: Outside, w: World, e: Event)
    ensures Feed(set_, o, w, e).bridge.evidence == w.bridge.evidence
  {
    hide Step, Coordination.BeginSecond, Coordination.EndSecond, Coordination.RecordFirstPass, EnvFor;
  }

  lemma BindKeepsShots(set_: Settings, disk: bool, w: World)
    ensures TryBind(set_, disk, w).bridge == w.bridge && TryBind(set_, disk, w).eng == w.eng
  {
  }

  lemma SensorsKeepShots(set_: Settings, o: Outside, w: World, p: Position)
    requires WorldInv(set_, w) && w.eng.tx.Some? && Act(set_, o, w, Sensors(p)).eng.tx.Some?
    ensures Act(set_, o, w, Sensors(p)).bridge.evidence == w.bridge.evidence && Cleared(w, p) == w
  {
    hide WorldInv, Feed, TryBind, DoReset, AllClear;
    var w0 := Cleared(w, p);
    ResetKeeps(set_, w);
    SensorsKeep(set_, o, w0, p);
    var w1 := Directed(w0, p);
    var w2 := Feed(set_, o, w1, SeePosition(Logical(w1, p)));
    BindKeepsShots(set_, o.diskFind, w2);
    FeedKeepsShots(set_, o, w1, SeePosition(Logical(w1, p)));
    if w0 != w { ClearedStartsNothing(set_, o, w0, p); ResetIsGone(w); }
  }

  lemma ResetIsGone(w: World)
    requires DoReset(w) != w && w.eng.tx.Some?
    ensures DoReset(w).eng.tx.None?
  {
  }

  lemma DeviceKeepsShots(set_: Settings, o: Outside, w: World, d: Event)
    ensures Act(set_, o, w, Device(d)).bridge.evidence == w.bridge.evidence
  {
    hide Feed, TryBind;
    FeedKeepsShots(set_, o, w, d);
    BindKeepsShots(set_, o.diskFind, Feed(set_, o, w, d));
  }

  /** Within a transaction an action changes the overrides only by the one it grants, and the shots only by the one it adds. */
  lemma ActGrows(set_: Settings, o: Outside, w: World, e: WorldEvent)
    requires WorldInv(set_, w) && w.eng.tx.Some? && Act(set_, o, w, e).eng.tx.Some?
    ensures var r := Act(set_, o, w, e); var t, t' := w.eng.tx.value, r.eng.tx.value;
            && t'.id == t.id
            && EvidenceOf(r.bridge, t.id) == EvidenceOf(w.bridge, t.id) + Shown(w, e)
            && (if e.Device? && e.e != Reset then t'.overrides == t.overrides + Given(EnvFor(set_, o, w), w.eng, e.e)
                else t'.overrides == t.overrides)
  {
    hide WorldInv, Step, Feed, TryBind, Directed, EnvFor, DoReset, Given;
    ActKeeps(set_, o, w, e);
    match e
    case Sensors(p) =>
      SensorsKeepShots(set_, o, w, p);
      SensorsGiveNothing(set_, o, w, p);
    case Device(d) =>
      DeviceKeepsShots(set_, o, w, d);
      F.DeviceEngine(set_, o, w, d);
      if d.SeePosition? { NothingGiven(EnvFor(set_, o, w), w.eng, d); } else if d != Reset { OverridesGrow(set_.cfg, EnvFor(set_, o, w), w.eng, d); }
    case OperatorReset =>
      if DoReset(w) != w { ResetIsGone(w); }
    case CameraShot(c) => ShotIsAdded(set_, o, w, c);
    case Elsewhere(a) =>
  }

  lemma NothingGiven(env: Env, s: Eng, e: Event)
    requires s.tx.Some? && !e.Grant?
    ensures Given(env, s, e) == []
  {
  }

  lemma SensorsGiveNothing(set_: Settings, o: Outside, w: World, p: Position)
    requires w.eng.tx.Some? && Cleared(w, p) == w
    ensures Act(set_, o, w, Sensors(p)).eng.tx.Some? && Act(set_, o, w, Sensors(p)).eng.tx.value.overrides == w.eng.tx.value.overrides
  {
    hide Act, Step, EnvFor, Cleared, Given;
    F.SensorsEngine(set_, o, w, p);
    var f := F.Facing(w, p);
    assert f.eng == w.eng;
    NothingGiven(EnvFor(set_, o, f), f.eng, SeePosition(Logical(f, p)));
    OverridesGrow(set_.cfg, EnvFor(set_, o, f), f.eng, SeePosition(Logical(f, p)));
  }

  lemma ShotIsAdded(set_: Settings, o: Outside, w: World, c: Camera)
    requires w.eng.tx.Some?
    ensures var r := Act(set_, o, w, CameraShot(c));
            r.eng == w.eng && EvidenceOf(r.bridge, w.eng.tx.value.id) == EvidenceOf(w.bridge, w.eng.tx.value.id) + Shown(w, CameraShot(c))
  {
  }

  // ---------- what the snapshot shows of them ----------

  lemma OutcomeLeavesLists(v: View, o: Outcome)
    ensures WithOutcome(v, o).overrides == v.overrides && WithOutcome(v, o).camera == v.camera
  {
  }

  lemma SnapshotLists(w: World)
    requires w.eng.tx.Some?
    ensures Snapshot(w).Some?
    ensures Snapshot(w).value.overrides == w.eng.tx.value.overrides
    ensures Snapshot(w).value.camera == EvidenceOf(w.bridge, w.eng.tx.value.id)
  {
    hide WithOutcome;
    var t := w.eng.tx.value;
    if t.id in w.bridge.outcomes { OutcomeLeavesLists(BaseView(w, t), w.bridge.outcomes[t.id]); }
  }

  /** In what is shown of one transaction, the overrides and the shots only grow. */
  predicate OnlyGrew(prev: Option<View>, cur: Option<View>) {
    prev.Some? && cur.Some? ==>
      && prev.value.id == cur.value.id && prev.value.overrides <= cur.value.overrides && prev.value.camera <= cur.value.camera
  }

  lemma ShownOnlyGrows(set_: Settings, o: Outside, w: World, e: WorldEvent)
    requires WorldInv(set_, w)
    ensures OnlyGrew(Snapshot(w), Snapshot(Act(set_, o, w, e)))
  {
    hide WorldInv, Act, Snapshot, Given, Shown, EnvFor, EvidenceOf;
    var r := Act(set_, o, w, e);
    SnapshotNamesTransaction(w);
    SnapshotNamesTransaction(r);
    if w.eng.tx.Some? && r.eng.tx.Some? {
      ActGrows(set_, o, w, e);
      SnapshotLists(w);
      SnapshotLists(r);
    }
  }

  // ---------- what the reader always knows ----------

  /** Identity, position, binding, overrides and shots are as shown; with no transaction nothing is known. */
  predicate Knows(k: Known, v: Option<View>) {
    match v
    case None => k == NOTHING_KNOWN
    case Some(c) =>
      && k.identity == c.identity && k.reason == c.reason && k.positioned == c.position && k.pos == c.pos
      && k.binding == R.Binding(c.direction, c.passNumber, c.cycleID, c.cycleStatus, c.businessComplete)
      && k.overrides == c.overrides && k.camera == c.camera
  }


  /** What the reader may lose. */
  datatype Item = TheTag | ThePlate | TheWeight | TheTicket

  predicate Right(i: Item, k: Known, v: Option<View>) {
    v.Some? ==>
      match i
      case TheTag => k.tag == v.value.tag
      case ThePlate => k.plate == v.value.plate
      case TheWeight => k.weight == v.value.accepted
      case TheTicket => k.ticketID == v.value.ticketID
  }

  /** The action changes the tag or the plate to a reading without text, or puts another weight or ticket in the place of one. */
  predicate Loses(i: Item, prev: Option<View>, cur: Option<View>) {
    cur.Some? &&
      match i
      case TheTag => Emptied(if prev.Some? then prev.value.tag else TagRead("", NoHealth, 0), cur.value.tag, cur.value.tag.tag)
      case ThePlate => Emptied(if prev.Some? then prev.value.plate else PlateRead("", "", NoHealth, 0), cur.value.plate, cur.value.plate.plate)
      case TheWeight => prev.Some? && prev.value.accepted.Some? && cur.value.accepted != prev.value.accepted
      case TheTicket => prev.Some? && prev.value.ticketID != "" && cur.value.ticketID != prev.value.ticketID
  }

  /** One action's entries keep the reader knowing, and lose an item exactly then. */
  lemma NextKnown(k: Known, prev: Option<View>, cur: Option<View>, i: Item)
    requires Knows(k, prev) && OnlyGrew(prev, cur)
    ensures var r := LearnAll(k, R.Diff(prev, cur));
            Knows(r, cur) && (Right(i, k, prev) ==> (Right(i, r, cur) <==> !Loses(i, prev, cur)))
  {
    hide LearnAll, R.Changes, Grown;
    match (prev, cur)
    case (None, None) => LearnOne(k, R.Entry("", R.StateTransition, R.FromWorkflow, None, None, R.Nothing));
    case (Some(p), None) => EndLearned(k, p);
    case (None, Some(c)) => StartLearnedExactly(k, c);
    case (Some(p), Some(c)) =>
      ChangesLearned(k, p, c, false);
      GrownExactly(p.overrides, c.overrides);
      GrownExactly(p.camera, c.camera);
  }

  /** What the reader knows after k actions. */
  ghost function KnownAt(set_: Settings, script: seq<Cue>, disk: nat -> bool, k: nat): Known
    requires k <= |script|
  {
    LearnAll(NOTHING_KNOWN, LogAt(set_, script, disk, k).log)
  }

  ghost predicate RightAt(i: Item, set_: Settings, script: seq<Cue>, disk: nat -> bool, k: nat)
    requires k <= |script|
  {
    Right(i, KnownAt(set_, script, disk, k), Snapshot(Play(set_, NEW_WORLD, script[..k])))
  }

  ghost predicate LosesAt(i: Item, set_: Settings, script: seq<Cue>, k: nat)
    requires k < |script|
  {
    Loses(i, Snapshot(Play(set_, NEW_WORLD, script[..k])), Snapshot(Play(set_, NEW_WORLD, script[..k + 1])))
  }

  lemma NextKnownAt(i: Item, set_: Settings, script: seq<Cue>, disk: nat -> bool, k: nat)
    requires set_.cfg.confirmations > 0 && k < |script| && (forall n: nat :: disk(n))
    requires Knows(KnownAt(set_, script, disk, k), Snapshot(Play(set_, NEW_WORLD, script[..k])))
    ensures Knows(KnownAt(set_, script, disk, k + 1), Snapshot(Play(set_, NEW_WORLD, script[..k + 1])))
    ensures RightAt(i, set_, script, disk, k) ==> (RightAt(i, set_, script, disk, k + 1) <==> !LosesAt(i, set_, script, k))
  {
    hide Snapshot, R.Diff, LogAt, Right, Loses, Knows, LearnAll, Act, WorldInv;
    NextLog(set_, script, disk, k);
    var l, r := LogAt(set_, script, disk, k), LogAt(set_, script, disk, k + 1);
    assert script[..k + 1][..k] == script[..k];
    NewWorldInv(set_);
    EveryWorldInv(set_, NEW_WORLD, script[..k]);
    ShownOnlyGrows(set_, script[k].o, l.world, script[k].e);
    LearnAppends(NOTHING_KNOWN, l.log, R.Diff(Snapshot(l.world), Snapshot(r.world)));
    NextKnown(KnownAt(set_, script, disk, k), Snapshot(l.world), Snapshot(r.world), i);
  }

  lemma NothingKnownYet(set_: Settings, script: seq<Cue>, disk: nat -> bool)
    ensures Knows(KnownAt(set_, script, disk, 0), Snapshot(Play(set_, NEW_WORLD, script[..0])))
    ensures forall i: Item :: RightAt(i, set_, script, disk, 0)
  {
    NothingShown();
  }

  /** Over every run in which no append fails, one who reads the log knows after every action the identity and position decided and why,
      the position, how the pass is bound to a cycle, every override in the order in which they were authorised, and every shot. */
  lemma {:induction false} ReaderKnows(set_: Settings, script: seq<Cue>, disk: nat -> bool, k: nat)
    requires set_.cfg.confirmations > 0 && k <= |script| && forall n: nat :: disk(n)
    ensures Knows(KnownAt(set_, script, disk, k), Snapshot(Play(set_, NEW_WORLD, script[..k])))
  {
    hide Knows, KnownAt, Snapshot, Play, RightAt, LosesAt;
    if k == 0 {
      NothingKnownYet(set_, script, disk);
    } else {
      ReaderKnows(set_, script, disk, k - 1);
      NextKnownAt(TheTag, set_, script, disk, k - 1);
    }
  }

  lemma {:induction false} RightUpTo(i: Item, set_: Settings, script: seq<Cue>, disk: nat -> bool, k: nat)
    requires set_.cfg.confirmations > 0 && k <= |script| && forall n: nat :: disk(n)
    requires forall j :: 0 <= j < k ==> !LosesAt(i, set_, script, j)
    ensures RightAt(i, set_, script, disk, k)
  {
    hide Knows, KnownAt, Snapshot, Play, RightAt, LosesAt;
    if k == 0 {
      NothingKnownYet(set_, script, disk);
    } else {
      RightUpTo(i, set_, script, disk, k - 1);
      ReaderKnows(set_, script, disk, k - 1);
      NextKnownAt(i, set_, script, disk, k - 1);
    }
  }

  /** Over every run in which no append fails, the log tells after every action the tag, the plate, the accepted weight or the ticket
      shown, if and only if no action changes the tag or the plate to a reading without text, or replaces the weight or the ticket. */
  lemma ReaderLosesExactly(i: Item, set_: Settings, script: seq<Cue>, disk: nat -> bool)
    requires set_.cfg.confirmations > 0 && forall n: nat :: disk(n)
    ensures (forall k :: 0 <= k <= |script| ==> RightAt(i, set_, script, disk, k))
            <==> (forall k :: 0 <= k < |script| ==> !LosesAt(i, set_, script, k))
  {
    hide Knows, KnownAt, Snapshot, Play, RightAt, LosesAt;
    if forall k :: 0 <= k < |script| ==> !LosesAt(i, set_, script, k) {
      forall k | 0 <= k <= |script| ensures RightAt(i, set_, script, disk, k) { RightUpTo(i, set_, script, disk, k); }
    }
    if forall k :: 0 <= k <= |script| ==> RightAt(i, set_, script, disk, k) {
      forall k | 0 <= k < |script| ensures !LosesAt(i, set_, script, k) {
        ReaderKnows(set_, script, disk, k);
        NextKnownAt(i, set_, script, disk, k);
        assert RightAt(i, set_, script, disk, k) && RightAt(i, set_, script, disk, k + 1);
      }
    }
  }

  // ---------- how items are lost ----------

  /** A tag reading without text, in any running transaction, goes unrecorded: the log goes on showing the tag read before. */
  lemma EmptyTagIsLost(set_: Settings, o: Outside, w: World, tag: TagRead)
    requires w.eng.tx.Some? && tag.tag == "" && Belongs(w.eng.tx.value, tag.observed) && tag != w.eng.tx.value.tag
    ensures Loses(TheTag, Snapshot(w), Snapshot(Act(set_, o, w, Device(SeeTag(tag)))))
  {
    hide Act, EvaluateIdentity, Snapshot, EnvFor;
    var r := Act(set_, o, w, Device(SeeTag(tag)));
    F.DeviceEngine(set_, o, w, SeeTag(tag));
    IdentityKeepsTag(set_.cfg, EnvFor(set_, o, w), Set(w.eng, w.eng.tx.value.(tag := tag)));
    SnapshotReadings(w);
    SnapshotReadings(r);
  }

  lemma IdentityKeepsTag(cfg: Config, env: Env, s: Eng)
    requires s.tx.Some?
    ensures var r := EvaluateIdentity(cfg, env, s); r.tx.Some? && r.tx.value.tag == s.tx.value.tag
  {
  }

  lemma OutcomeLeavesReadings(v: View, o: Outcome)
    ensures WithOutcome(v, o).tag == v.tag && WithOutcome(v, o).accepted == v.accepted
  {
  }

  lemma SnapshotReadings(w: World)
    requires w.eng.tx.Some?
    ensures Snapshot(w).Some?
    ensures Snapshot(w).value.tag == w.eng.tx.value.tag
    ensures Snapshot(w).value.accepted == w.eng.tx.value.accepted
  {
    hide WithOutcome;
    var t := w.eng.tx.value;
    if t.id in w.bridge.outcomes { OutcomeLeavesReadings(BaseView(w, t), w.bridge.outcomes[t.id]); }
  }

  /** The weight of a second ticket in one transaction goes unrecorded: the log goes on showing the first. */
  lemma SecondWeightIsLost(set_: Settings, o: Outside, w: World, a: Audited)
    requires w.eng.tx.Some? && w.eng.tx.value.accepted.Some? && w.eng.tx.value.accepted.value.rawRef != a.rawRef
    requires var out := Step(set_.cfg, EnvFor(set_, o, w), w.eng, SeeScale(a)); out.offered.Some? && out.ok
    ensures Loses(TheWeight, Snapshot(w), Snapshot(Act(set_, o, w, Device(SeeScale(a)))))
  {
    hide Act, OnScale, Snapshot, EnvFor;
    var r := Act(set_, o, w, Device(SeeScale(a)));
    F.DeviceEngine(set_, o, w, SeeScale(a));
    AcceptedIsTheFrame(set_.cfg, EnvFor(set_, o, w), w.eng, a);
    SnapshotReadings(w);
    SnapshotReadings(r);
  }

  lemma AcceptedIsTheFrame(cfg: Config, env: Env, s: Eng, a: Audited)
    requires var out := OnScale(cfg, env, s, a); out.offered.Some? && out.ok
    ensures var r := OnScale(cfg, env, s, a).eng; r.tx.Some? && r.tx.value.accepted == Some(Weight(a.reading.kg, a.reading.observed, a.rawRef))
  {
    hide EnterWeighing, Weigh;
  }

  // ---------- every entry is true ----------

  /** Whatever appends fail, every entry an action leaves in the log is true of what was shown before and after it; and an action that ends
      a transaction leaves no other entry than the one that says which, in which state and how bound. */
  lemma RecordedIsTrue(set_: Settings, o: Outside, l: Logged, e: WorldEvent, disk: nat -> bool)
    requires WorldInv(set_, l.world) && !e.Elsewhere?
    ensures var prev, cur := Snapshot(l.world), Snapshot(Act(set_, o, l.world, e)); var log := Record(set_, o, l, e, disk).log;
            && l.log <= log
            && var added := log[|l.log|..];
               match cur
               case Some(c) => AllTruthful(if prev.Some? then prev.value else R.Blank(c), c, added)
               case None => forall i :: 0 <= i < |added| ==>
                 prev.Some? && added[i].id == prev.value.id && added[i].kind == R.TransactionReset
                 && added[i].old_ == Some(prev.value.state) && added[i].new_ == Some(Idle)
                 && added[i].detail == R.Binding(prev.value.direction, prev.value.passNumber, prev.value.cycleID, prev.value.cycleStatus,
                                                 prev.value.businessComplete)
  {
    hide WorldInv, Act, Snapshot, Truthful, R.Changes;
    var w := Act(set_, o, l.world, e);
    var prev, cur := Snapshot(l.world), Snapshot(w);
    ActKeeps(set_, o, l.world, e);
    SnapshotNamesTransaction(l.world);
    SnapshotNamesTransaction(w);
    if cur.Some? { EntriesAreTrue(prev, cur.value); }
    var entries := R.Diff(prev, cur);
    var added := Record(set_, o, l, e, disk).log[|l.log|..];
    assert added == entries[..|added|];
  }
}
