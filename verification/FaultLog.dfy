/**
 Which actions make the log of faults wrong, told before they happen.
 */
module FaultLogs {
  import opened Domain
  import opened EngineSpec
  import opened EngineProofs
  import opened TwoPass
  import opened TwoPassProofs
  import opened RecorderProofs
  import opened Interleaving
  import R = Recorders

  // ---------- the faults a transaction shows ----------

  /** Every fault is under its own device, and what stands in the engine stands in the transaction. */
  ghost predicate FaultsInv(s: Eng) {
    && Keyed(s.faults)
    && (s.tx.Some? ==> Keyed(s.tx.value.faults) && forall d :: d in s.faults ==> d in s.tx.value.faults && s.tx.value.faults[d] == s.faults[d])
  }

  predicate SameFaults(s: Eng, r: Eng) {
    s.tx.Some? && r.tx.Some? && r.faults == s.faults && r.tx.value.faults == s.tx.value.faults
  }

  lemma TryAuthorizeFaults(cfg: Config, s: Eng)
    requires s.tx.Some?
    ensures SameFaults(s, TryAuthorize(cfg, s))
  {
  }

  lemma IdentityFaults(cfg: Config, env: Env, s: Eng)
    requires s.tx.Some?
    ensures SameFaults(s, EvaluateIdentity(cfg, env, s))
  {
    hide TryAuthorize;
    var t := s.tx.value;
    var look := Resolve(env, t.tag.tag);
    TryAuthorizeFaults(cfg, Set(s, t.(identity := IdAccepted, reason := ChannelsMatch,
                                      state := if t.state == IdentityMismatch then Identifying else t.state)));
    TryAuthorizeFaults(cfg, Set(s, t.(identity := IdAccepted, reason := TagDegraded, mode := Degraded)));
    if look.Mapped? {
      TryAuthorizeFaults(cfg, Set(s, t.(plate := PlateRead(look.plate, "", Faulty, t.tag.observed),
                                        identity := IdAccepted, reason := PlateDegraded, mode := Degraded)));
    }
  }

  lemma HelperFaults(s: Eng)
    requires s.tx.Some?
    ensures SameFaults(s, UpdateMode(s)) && SameFaults(s, EvaluatePosition(s)) && SameFaults(s, TryReady(s))
  {
    PositionShape(s);
  }

  lemma DeckFaults(s: Eng, p: Position)
    requires s.tx.Some?
    ensures SameFaults(s, OnDeck(s, p))
  {
    hide EvaluatePosition, TryReady;
    var t := s.tx.value;
    var s1 := if p.frontPresent && t.state == EntryAuthorized then Set(s, t.(state := Entering)) else s;
    var t1 := s1.tx.value;
    var s2 := if t1.state == Entering || t1.state == EntryAuthorized then Set(s1, t1.(state := Positioning)) else s1;
    HelperFaults(s2);
    HelperFaults(EvaluatePosition(s2));
  }

  lemma PositionFaults(cfg: Config, env: Env, s: Eng, p: Position)
    requires s.tx.Some?
    ensures SameFaults(s, OnPosition(cfg, env, s, p))
  {
    hide TryAuthorize, OnDeck;
    var s1 := Set(s, s.tx.value.(pos := p));
    TryAuthorizeFaults(cfg, s1);
    DeckFaults(Approaching(cfg, s1), p);
  }

  lemma EnterWeighingFaults(cfg: Config, s: Eng)
    requires s.tx.Some?
    ensures SameFaults(s, EnterWeighing(cfg, s))
  {
    hide TryAuthorize, TryReady;
    TryAuthorizeFaults(cfg, s);
    HelperFaults(Approaching(cfg, s));
  }

  lemma WeighingFaults(cfg: Config, env: Env, s: Eng, a: Audited)
    requires s.tx.Some?
    ensures SameFaults(s, WeighAndCommit(cfg, env, s, a).eng)
  {
  }

  lemma ScaleFaults(cfg: Config, env: Env, s: Eng, a: Audited)
    requires s.tx.Some?
    ensures var r := OnScale(cfg, env, s, a).eng;
            && r.tx.Some?
            && (if !a.rawRef.Present() then r == s
                else if !a.reading.Sound() then
                  r.faults == s.faults[Scale := ScaleFault(a.reading)] && r.tx.value.faults == r.faults
                else r.faults == s.faults - {Scale} && (r.tx.value.faults == s.tx.value.faults || r.tx.value.faults == r.faults))
  {
    hide EnterWeighing, WeighAndCommit;
    if a.rawRef.Present() && a.reading.Sound() {
      var f := SyncFaults(Receive(s, a).(faults := Receive(s, a).faults - {Scale}));
      EnterWeighingFaults(cfg, f);
      WeighingFaults(cfg, env, EnterWeighing(cfg, f), a);
    }
  }

  lemma AfterFaultFaults(cfg: Config, env: Env, s: Eng, d: Domain.Device)
    requires s.tx.Some?
    ensures SameFaults(s, AfterFault(cfg, env, UpdateMode(s), d))
  {
    hide EvaluateIdentity, EvaluatePosition, UpdateMode;
    HelperFaults(s);
    HelperFaults(UpdateMode(s));
    IdentityFaults(cfg, env, UpdateMode(s));
    IdentityFaults(cfg, env, EvaluatePosition(UpdateMode(s)));
  }

  lemma GrantFaults(cfg: Config, env: Env, s: Eng, o: Override)
    requires s.tx.Some?
    ensures SameFaults(s, OnGrant(cfg, env, s, o).eng)
  {
    hide EvaluateIdentity, EvaluatePosition, UpdateMode, TryReady, Grantable;
    var dated := if o.authorizedAt == 0 then o.(authorizedAt := env.now) else o;
    var s0 := Set(s, s.tx.value.(overrides := s.tx.value.overrides + [dated]));
    var s1 := UpdateMode(s0);
    HelperFaults(s0);
    HelperFaults(s1);
    HelperFaults(EvaluatePosition(s1));
    IdentityFaults(cfg, env, s1);
    IdentityFaults(cfg, env, TryReady(EvaluatePosition(s1)));
  }

  /** What an event in a transaction does to the faults: it sets one, clears one, or leaves them. */
  lemma StepFaults(cfg: Config, env: Env, s: Eng, e: Event)
    requires s.tx.Some? && e != Reset
    ensures var r := Step(cfg, env, s, e).eng;
            && r.tx.Some?
            && match e
               case SetFault(f) => r.faults == s.faults[f.device := f] && r.tx.value.faults == r.faults
               case ClearFault(d) => r.faults == s.faults - {d} && r.tx.value.faults == r.faults
               case SeeScale(a) =>
                 (if !a.rawRef.Present() then r == s
                  else if !a.reading.Sound() then
                    r.faults == s.faults[Scale := ScaleFault(a.reading)] && r.tx.value.faults == r.faults
                  else r.faults == s.faults - {Scale} && (r.tx.value.faults == s.tx.value.faults || r.tx.value.faults == r.faults))
               case _ => SameFaults(s, r)
  {
    hide OnPosition, OnScale, EvaluateIdentity, OnGrant, AfterFault, UpdateMode;
    match e
    case SeePosition(p) => PositionFaults(cfg, env, s, p);
    case SeeTag(tag) => IdentityFaults(cfg, env, Set(s, s.tx.value.(tag := tag)));
    case SeePlate(plate) => IdentityFaults(cfg, env, Set(s, s.tx.value.(plate := plate)));
    case SeeScale(a) => ScaleFaults(cfg, env, s, a);
    case SetFault(f) => AfterFaultFaults(cfg, env, SyncFaults(s.(faults := s.faults[f.device := f])), f.device);
    case ClearFault(d) => AfterFaultFaults(cfg, env, SyncFaults(s.(faults := s.faults - {d})), d);
    case Grant(o) => GrantFaults(cfg, env, s, o);
  }

  lemma StartFaults(cfg: Config, env: Env, s: Eng, p: Position)
    requires s.tx.None? && p.entryPresent
    ensures var r := OnPosition(cfg, env, s, p); r.tx.Some? && r.faults == s.faults && r.tx.value.faults == s.faults
  {
    hide TryAuthorize, OnDeck, Leaving, AuxDevices;
    var s0 := Start(env, s, p.observed);
    PositionFaults(cfg, env, s0, p);
    assert OnPosition(cfg, env, s, p) == OnPosition(cfg, env, s0, p);
  }

  lemma IdleFaults(cfg: Config, env: Env, s: Eng, e: Event)
    requires s.tx.None? && FaultsInv(s)
    ensures FaultsInv(Step(cfg, env, s, e).eng)
  {
    hide OnPosition;
    if e.SeePosition? {
      if e.p.entryPresent { StartFaults(cfg, env, s, e.p); } else { NobodyStarts(cfg, env, s, e.p); }
    }
  }

  lemma NobodyStarts(cfg: Config, env: Env, s: Eng, p: Position)
    requires s.tx.None? && !p.entryPresent
    ensures OnPosition(cfg, env, s, p) == s
  {
  }

  lemma StepKeepsFaults(cfg: Config, env: Env, s: Eng, e: Event)
    requires FaultsInv(s)
    ensures FaultsInv(Step(cfg, env, s, e).eng)
  {
    hide Step;
    if s.tx.None? {
      IdleFaults(cfg, env, s, e);
    } else if e == Reset {
      ResetFaults(cfg, env, s);
    } else {
      StepFaults(cfg, env, s, e);
    }
  }

  lemma ResetFaults(cfg: Config, env: Env, s: Eng)
    ensures var r := Step(cfg, env, s, Reset).eng; r.faults == s.faults && (r.tx.Some? ==> r == s)
  {
  }

  // ---------- whole actions ----------

  lemma FeedEngine(set_: Settings, o: Outside, w: World, e: Event)
    ensures Feed(set_, o, w, e).eng == Step(set_.cfg, EnvFor(set_, o, w), w.eng, e).eng
  {
    hide Step, Commit, EnvFor;
  }

  /** The world a position event is fed into. */
  function Facing(w: World, p: Position): World {
    Directed(Cleared(w, p), p)
  }

  lemma FacingEngine(w: World, p: Position)
    ensures var f := Facing(w, p); f.eng == w.eng || (f.eng == w.eng.(tx := None, stableBase := None) && AllClear(p))
  {
  }

  lemma SensorsEngine(set_: Settings, o: Outside, w: World, p: Position)
    ensures var f := Facing(w, p);
            Act(set_, o, w, Sensors(p)).eng == Step(set_.cfg, EnvFor(set_, o, f), f.eng, SeePosition(Logical(f, p))).eng
  {
    hide Step, Feed, TryBind, EnvFor, Directed, Cleared;
    var f := Facing(w, p);
    FeedEngine(set_, o, f, SeePosition(Logical(f, p)));
    BindLeavesEngine(set_, o.diskFind, Feed(set_, o, f, SeePosition(Logical(f, p))));
  }

  lemma DeviceEngine(set_: Settings, o: Outside, w: World, d: Event)
    ensures Act(set_, o, w, Device(d)).eng
            == if d.SeePosition? || d == Reset then w.eng else Step(set_.cfg, EnvFor(set_, o, w), w.eng, d).eng
  {
    hide Step, Feed, TryBind, EnvFor;
    FeedEngine(set_, o, w, d);
    BindLeavesEngine(set_, o.diskFind, Feed(set_, o, w, d));
  }

  lemma RestEngine(set_: Settings, o: Outside, w: World, e: WorldEvent)
    requires e.CameraShot? || e.OperatorReset? || e.Elsewhere?
    ensures var r := Act(set_, o, w, e).eng; r == w.eng || r == w.eng.(tx := None, stableBase := None)
  {
    hide Interleaving.Do;
  }

  lemma ActKeepsFaults(set_: Settings, o: Outside, w: World, e: WorldEvent)
    requires FaultsInv(w.eng)
    ensures FaultsInv(Act(set_, o, w, e).eng)
  {
    hide Act, Step, Directed, Cleared, EnvFor, Keyed;
    match e
    case Sensors(p) =>
      SensorsEngine(set_, o, w, p);
      FacingEngine(w, p);
      var f := Facing(w, p);
      StepKeepsFaults(set_.cfg, EnvFor(set_, o, f), f.eng, SeePosition(Logical(f, p)));
    case Device(d) =>
      DeviceEngine(set_, o, w, d);
      StepKeepsFaults(set_.cfg, EnvFor(set_, o, w), w.eng, d);
    case _ => RestEngine(set_, o, w, e);
  }

  lemma {:induction false} EveryFaultsInv(set_: Settings, script: seq<Cue>)
    ensures FaultsInv(Play(set_, NEW_WORLD, script).eng)
  {
    hide Act;
    if script != [] {
      var init, last := script[..|script| - 1], script[|script| - 1];
      EveryFaultsInv(set_, init);
      ActKeepsFaults(set_, last.o, Play(set_, NEW_WORLD, init), last.e);
    }
  }

  // ---------- which actions mask ----------

  /** Another fault of this device stands for the same reason. */
  predicate Replaces(standing: map<Domain.Device, Fault>, f: Fault) {
    f.device in standing && standing[f.device] != f && standing[f.device].reason == f.reason
  }

  /** The action sets a fault, reported or of a scale with an unsound frame, over another of the same device and reason. */
  predicate MaskingAction(w: World, e: WorldEvent) {
    && w.eng.tx.Some? && e.Device?
    && var standing := w.eng.tx.value.faults;
       match e.e
       case SetFault(f) => Replaces(standing, f)
       case SeeScale(a) => a.rawRef.Present() && !a.reading.Sound() && Replaces(standing, ScaleFault(a.reading))
       case _ => false
  }

  /** Some device's fault changed, but not its reason. */
  ghost predicate MapMasks(m: map<Domain.Device, Fault>, n: map<Domain.Device, Fault>) {
    exists d :: d in m && d in n && m[d] != n[d] && m[d].reason == n[d].reason
  }

  lemma SnapshotMasks(v: World, w: World)
    requires v.eng.tx.Some? && w.eng.tx.Some? && Keyed(v.eng.tx.value.faults) && Keyed(w.eng.tx.value.faults)
    ensures R.Masks(Snapshot(v), Snapshot(w)) <==> MapMasks(v.eng.tx.value.faults, w.eng.tx.value.faults)
  {
    hide Snapshot, R.FaultsOf;
    var m, n := v.eng.tx.value.faults, w.eng.tx.value.faults;
    if d :| d in m && d in n && m[d] != n[d] && m[d].reason == n[d].reason {
      SnapshotFaults(v, m[d]);
      SnapshotFaults(w, m[d]);
      SnapshotFaults(w, n[d]);
    }
    if R.Masks(Snapshot(v), Snapshot(w)) {
      var f, g :| f in R.FaultsOf(Snapshot(w)) && g in R.FaultsOf(Snapshot(v)) && g !in R.FaultsOf(Snapshot(w))
                  && g.device == f.device && g.reason == f.reason;
      SnapshotFaults(w, f);
      SnapshotFaults(v, g);
      assert m[f.device] != n[f.device];
    }
  }

  lemma NoneMasks(v: World, w: World)
    requires v.eng.tx.None? || w.eng.tx.None?
    ensures !R.Masks(Snapshot(v), Snapshot(w))
  {
    R.NothingMasks(Snapshot(v), Snapshot(w));
  }

  lemma StepMasks(cfg: Config, env: Env, s: Eng, e: Event)
    requires s.tx.Some? && FaultsInv(s) && e != Reset
    ensures var r := Step(cfg, env, s, e).eng;
            && r.tx.Some?
            && (MapMasks(s.tx.value.faults, r.tx.value.faults) <==>
                 match e
                 case SetFault(f) => Replaces(s.tx.value.faults, f)
                 case SeeScale(a) => a.rawRef.Present() && !a.reading.Sound() && Replaces(s.tx.value.faults, ScaleFault(a.reading))
                 case _ => false)
  {
    hide Step;
    StepFaults(cfg, env, s, e);
    var m := s.tx.value.faults;
    if e.SetFault? { SettingMasks(m, s.faults, e.f); }
    if e.SeeScale? { SettingMasks(m, s.faults, ScaleFault(e.a.reading)); }
  }

  lemma SettingMasks(m: map<Domain.Device, Fault>, faults: map<Domain.Device, Fault>, f: Fault)
    requires forall d :: d in faults ==> d in m && m[d] == faults[d]
    ensures MapMasks(m, faults[f.device := f]) <==> Replaces(m, f)
  {
    var n := faults[f.device := f];
    if Replaces(m, f) { assert n[f.device] == f; }
  }

  /** In every reachable world an action makes the fault entries wrong exactly when it sets a fault over another of the same device
      and reason: told from the action and from what stands before it. */
  lemma MaskingExactly(set_: Settings, o: Outside, w: World, e: WorldEvent)
    requires FaultsInv(w.eng)
    ensures R.Masks(Snapshot(w), Snapshot(Act(set_, o, w, e))) <==> MaskingAction(w, e)
  {
    hide Act, Snapshot, Step, Directed, Cleared, EnvFor, MapMasks, R.Masks, Replaces;
    var r := Act(set_, o, w, e);
    ActKeepsFaults(set_, o, w, e);
    if w.eng.tx.None? || r.eng.tx.None? { NoneMasks(w, r); } else { SnapshotMasks(w, r); SameMasksNothing(w.eng.tx.value.faults); }
    match e
    case Sensors(p) => SensorsMaskNothing(set_, o, w, p);
    case Device(d) =>
      DeviceEngine(set_, o, w, d);
      if w.eng.tx.Some? && d != Reset { StepMasks(set_.cfg, EnvFor(set_, o, w), w.eng, d); }
    case _ => RestEngine(set_, o, w, e);
  }

  lemma SameMasksNothing(m: map<Domain.Device, Fault>)
    ensures !MapMasks(m, m)
  {
  }

  lemma SensorsMaskNothing(set_: Settings, o: Outside, w: World, p: Position)
    ensures var r := Act(set_, o, w, Sensors(p)).eng;
            w.eng.tx.Some? && r.tx.Some? ==> r.tx.value.faults == w.eng.tx.value.faults
  {
    hide Act, Step, EnvFor, Directed, Cleared;
    SensorsEngine(set_, o, w, p);
    FacingEngine(w, p);
    var f := Facing(w, p);
    var env, q := EnvFor(set_, o, f), Logical(f, p);
    if f.eng.tx.Some? { StepFaults(set_.cfg, env, f.eng, SeePosition(q)); } else { StepPosition(set_.cfg, env, f.eng, q); }
  }

  lemma StepPosition(cfg: Config, env: Env, s: Eng, p: Position)
    requires s.tx.None?
    ensures !p.entryPresent ==> Step(cfg, env, s, SeePosition(p)).eng == s
  {
    hide OnPosition;
    if !p.entryPresent { NobodyStarts(cfg, env, s, p); }
  }

  /** Action k sets a fault over another of the same device and reason. */
  ghost predicate MaskedAt(set_: Settings, script: seq<Cue>, k: nat)
    requires k < |script|
  {
    MaskingAction(Play(set_, NEW_WORLD, script[..k]), script[k].e)
  }

  lemma MaskedExactly(set_: Settings, script: seq<Cue>, k: nat)
    requires k < |script|
    ensures MasksAt(set_, script, k) <==> MaskedAt(set_, script, k)
  {
    hide Act, Snapshot, MaskingAction, R.Masks;
    assert script[..k + 1][..k] == script[..k];
    EveryFaultsInv(set_, script[..k]);
    MaskingExactly(set_, script[k].o, Play(set_, NEW_WORLD, script[..k]), script[k].e);
  }

  /** Over every run in which no append fails, the fault entries tell after every action exactly which faults stand, if and only
      if no action sets a fault over another of the same device and reason. */
  lemma LogIsRightExactly(set_: Settings, script: seq<Cue>, disk: nat -> bool)
    requires set_.cfg.confirmations > 0 && forall i: nat :: disk(i)
    ensures (forall k :: 0 <= k <= |script| ==> FaultsRight(set_, script, disk, k))
            <==> (forall k :: 0 <= k < |script| ==> !MaskedAt(set_, script, k))
  {
    hide FaultsRight, MasksAt, MaskedAt;
    LogShowsFaultsExactly(set_, script, disk);
    forall k | 0 <= k < |script| ensures MasksAt(set_, script, k) <==> MaskedAt(set_, script, k) { MaskedExactly(set_, script, k); }
  }
}
