/**
 The engine's promises, for every reachable state and every run.
 */
module EngineTheorems {
  import opened Domain
  import opened Pairing
  import opened EngineSpec
  import opened EngineProofs

  // ---------- tickets are earned ----------

  /** What weighing one frame does. */
  lemma WeighingOutcome(cfg: Config, env: Env, w: Eng, a: Audited)
    requires Inv(cfg, w) && w.tx.Some? && a.rawRef.Present() && a.reading.Sound()
    ensures var out := WeighAndCommit(cfg, env, w, a);
            && out.eng.tx.Some?
            && (w.tx.value.state != Weighing ==> out.offered.None? && out.eng.frames == w.frames)
            && (w.tx.value.state == Weighing ==>
                 && out.eng.frames == w.frames + [a]
                 && (env.sink.Store? ==> (out.offered.Some? <==> Streak(cfg, out.eng.frames, cfg.confirmations)))
                 && (env.sink.NoStore? ==> out.offered.None?)
                 && (out.offered.Some? ==>
                      && Streak(cfg, out.eng.frames, cfg.confirmations)
                      && (Offers(w.marks) == 0 ==> LongestStreak(cfg, out.eng.frames, cfg.confirmations))
                      && out.eng.marks == w.marks + [Offered(out.offered.value, out.ok)]
                      && out.offered.value == TicketFor(cfg, env, w.tx.value.(confirmations := out.eng.tx.value.confirmations), a)
                      && out.eng.tx.value.id == w.tx.value.id
                      && (out.ok ==>
                           && out.eng.tx.value.state == ExitAuthorized
                           && out.eng.tx.value.outputs == Outputs(false, true, true, false, true))))
  {
    if w.tx.value.state == Weighing {
      WeighKeeps(cfg, w, a);
      var s1 := Weigh(cfg, w, a);
      WeighedCounts(cfg, w, s1, a);
      var n := s1.tx.value.confirmations;
      if n >= cfg.confirmations { ShorterStreak(cfg, s1.frames, n, cfg.confirmations); }
    }
  }

  lemma ScaleOffer(cfg: Config, env: Env, s: Eng, a: Audited)
    requires Inv(cfg, s) && OnScale(cfg, env, s, a).offered.Some?
    ensures a.rawRef.Present() && a.reading.Sound()
    ensures var out := OnScale(cfg, env, s, a);
            && out.eng.marks != [] && out.eng.marks[|out.eng.marks| - 1] == Offered(out.offered.value, out.ok)
            && out.eng.frames != [] && out.eng.frames[|out.eng.frames| - 1] == a
            && out.offered.value.weight == Weight(a.reading.kg, a.reading.observed, a.rawRef)
            && Streak(cfg, out.eng.frames, cfg.confirmations)
            && (out.ok ==>
                 && out.eng.tx.Some? && out.eng.tx.value.state == ExitAuthorized
                 && out.eng.tx.value.outputs == Outputs(false, true, true, false, true))
  {
    hide OnScale, WeighAndCommit, Inv, Streak, LongestStreak;
    var w := OnScaleCases(cfg, env, s, a);
    WeighingOutcome(cfg, env, w.value, a);
    assert w.value.tx.value.state == Weighing;
  }

  lemma OfferComesFromAFrame(cfg: Config, env: Env, s: Eng, e: Event)
    requires Inv(cfg, s) && Step(cfg, env, s, e).offered.Some?
    ensures e.SeeScale? && e.a.rawRef.Present() && e.a.reading.Sound()
    ensures var out, a := Step(cfg, env, s, e), e.a;
            && out.eng.marks != [] && out.eng.marks[|out.eng.marks| - 1] == Offered(out.offered.value, out.ok)
            && out.eng.frames != [] && out.eng.frames[|out.eng.frames| - 1] == a
            && out.offered.value.weight == Weight(a.reading.kg, a.reading.observed, a.rawRef)
            && Streak(cfg, out.eng.frames, cfg.confirmations)
            && (out.ok ==>
                 && out.eng.tx.Some? && out.eng.tx.value.state == ExitAuthorized
                 && out.eng.tx.value.outputs == Outputs(false, true, true, false, true))
  {
    hide OnScale, Inv, Streak;
    OnlyScaleOffers(cfg, env, s, e);
    ScaleOffer(cfg, env, s, e.a);
  }

  lemma OnlyScaleOffers(cfg: Config, env: Env, s: Eng, e: Event)
    requires Step(cfg, env, s, e).offered.Some?
    ensures e.SeeScale? && Step(cfg, env, s, e) == OnScale(cfg, env, s, e.a)
  {
  }

  lemma ShorterStreak(cfg: Config, frames: seq<Audited>, n: nat, m: int)
    requires Streak(cfg, frames, n) && 0 <= m <= n
    ensures Streak(cfg, frames, m)
  {
  }

  /** Every ticket offered to the store is an audited, sound, stable frame above the minimum, and in the same transaction it
      was preceded by an entry authorisation on full proof and, after that, by a moment with identity and position accepted. */
  lemma EveryTicketIsEarned(cfg: Config, env: Env, s: Eng, e: Event)
    requires Inv(cfg, s) && Step(cfg, env, s, e).offered.Some?
    ensures var out := Step(cfg, env, s, e);
            && e.SeeScale? && e.a.rawRef.Present() && e.a.reading.Sound() && Qualifying(cfg, e.a)
            && out.offered.value.weight == Weight(e.a.reading.kg, e.a.reading.observed, e.a.rawRef)
            && s.tx.Some? && out.offered.value.txID == s.tx.value.id
    ensures exists i, j :: Earned(cfg, Step(cfg, env, s, e).eng.marks, i, j)
    ensures forall k :: 0 <= k < |Step(cfg, env, s, e).eng.marks| ==>
              MarkOK(cfg, Step(cfg, env, s, e).offered.value.txID, Step(cfg, env, s, e).eng.marks[k])
  {
    var out := Step(cfg, env, s, e);
    StepKeeps(cfg, env, s, e);
    OfferComesFromAFrame(cfg, env, s, e);
    var m, n := out.eng.marks, |out.eng.marks| - 1;
    ReadyAfterMeans(cfg, out.eng.tx.value.id, m[..n]);
    var i, j :| Earned(cfg, m[..n], i, j);
    assert Earned(cfg, m, i, j);
    StoryMeans(cfg, out.eng.tx.value.id, m);
  }

  lemma {:induction false} StoryMeans(cfg: Config, id: string, m: seq<Mark>)
    requires Story(cfg, id, m)
    ensures forall k :: 0 <= k < |m| ==> MarkOK(cfg, id, m[k])
  {
    if m != [] {
      StoryMeans(cfg, id, m[..|m| - 1]);
      forall k | 0 <= k < |m| ensures MarkOK(cfg, id, m[k]) {
        if k < |m| - 1 { assert m[k] == m[..|m| - 1][k]; }
      }
    }
  }

  // ---------- when a ticket is offered ----------

  /** With a store attached, a step offers a ticket exactly when it weighs a frame that ends a streak of the configured length;
      the first offer of a transaction falls on the very frame the streak reaches it. */
  lemma OffersExactlyOnStreak(cfg: Config, env: Env, s: Eng, e: Event)
    requires Inv(cfg, s) && env.sink.Store?
    ensures var out := Step(cfg, env, s, e);
            && (out.offered.Some? <==> |out.eng.frames| > |s.frames| && Streak(cfg, out.eng.frames, cfg.confirmations))
            && (out.offered.Some? && Offers(s.marks) == 0 ==> LongestStreak(cfg, out.eng.frames, cfg.confirmations))
  {
    var out := Step(cfg, env, s, e);
    if e.SeeScale? {
      if out.offered.Some? { OfferComesFromAFrame(cfg, env, s, e); }
      StreakOnScale(cfg, env, s, e.a);
    } else {
      FramesOnlyFromScale(cfg, env, s, e);
    }
  }

  lemma FramesOnlyFromScale(cfg: Config, env: Env, s: Eng, e: Event)
    requires Inv(cfg, s) && !e.SeeScale?
    ensures var out := Step(cfg, env, s, e); out.offered.None? && (out.eng.frames == s.frames || out.eng.frames == [])
  {
    match e
    case SeePosition(p) =>
      if s.tx.Some? || !p.entryPresent { OnPositionKeeps(cfg, env, s, p); } else { FreshFrames(cfg, env, s, p); }
    case SeeTag(tag) =>
      if s.tx.Some? && Belongs(s.tx.value, tag.observed) { ObserveKeeps(cfg, env, s, s.tx.value.(tag := tag)); }
    case SeePlate(plate) =>
      if s.tx.Some? && Belongs(s.tx.value, plate.observed) { ObserveKeeps(cfg, env, s, s.tx.value.(plate := plate)); }
    case SetFault(f) => OnFaultKeeps(cfg, env, s, f);
    case ClearFault(d) => OnClearKeeps(cfg, env, s, d);
    case Grant(o) => OnGrantKeeps(cfg, env, s, o);
    case Reset =>
  }

  lemma FreshFrames(cfg: Config, env: Env, s: Eng, p: Position)
    requires Inv(cfg, s) && s.tx.None? && p.entryPresent
    ensures OnPosition(cfg, env, s, p).frames == []
  {
    hide Start, Approaching, OnDeck, Leaving, Story, Counting;
    StartKeeps(cfg, env, s, p.observed);
    var s0 := Start(env, s, p.observed);
    var s1 := Set(s0, s0.tx.value.(pos := p));
    RewriteKeeps(cfg, s0, s1.tx.value);
    ApproachingKeeps(cfg, s1);
    OnDeckKeeps(cfg, Approaching(cfg, s1), p);
    LeavingKeeps(cfg, env, OnDeck(Approaching(cfg, s1), p), p);
  }

  lemma StreakOnScale(cfg: Config, env: Env, s: Eng, a: Audited)
    requires Inv(cfg, s) && env.sink.Store?
    ensures var out := OnScale(cfg, env, s, a);
            && (out.offered.Some? <==> |out.eng.frames| > |s.frames| && Streak(cfg, out.eng.frames, cfg.confirmations))
            && (out.offered.Some? && Offers(s.marks) == 0 ==> LongestStreak(cfg, out.eng.frames, cfg.confirmations))
  {
    var w := OnScaleCases(cfg, env, s, a);
    if w.Some? { WeighingOutcome(cfg, env, w.value, a); }
  }

  /** The frames behind an offer agree with one another to within N - 1 tolerances. */
  lemma OfferedFramesAgree(cfg: Config, env: Env, s: Eng, e: Event, i: nat, j: nat)
    requires Inv(cfg, s) && cfg.tolerance >= 0 && Step(cfg, env, s, e).offered.Some?
    requires var f := Step(cfg, env, s, e).eng.frames; |f| - cfg.confirmations <= i <= j < |f|
    ensures var f := Step(cfg, env, s, e).eng.frames;
            Abs(f[i].reading.kg - f[j].reading.kg) <= (cfg.confirmations - 1) * cfg.tolerance
  {
    OfferComesFromAFrame(cfg, env, s, e);
    StreakSpread(cfg, Step(cfg, env, s, e).eng.frames, cfg.confirmations, i, j);
  }

  // ---------- lockout ----------

  predicate Locked(s: Eng) {
    s.tx.Some? && s.tx.value.state == FaultLockout && s.tx.value.outputs == ALL_OFF
  }

  lemma LockedStep(cfg: Config, env: Env, s: Eng, e: Event)
    requires Inv(cfg, s) && Locked(s)
    ensures var out := Step(cfg, env, s, e);
            Locked(out.eng) && out.eng.tx.value.id == s.tx.value.id && out.offered.None?
  {
    StepKeeps(cfg, env, s, e);
  }

  /** No later event, of any kind, leaves a lockout or puts an output on. */
  lemma {:induction false} LockoutIsForever(cfg: Config, s: Eng, script: seq<Timed>)
    requires Inv(cfg, s) && Locked(s)
    ensures Locked(Run(cfg, s, script)) && Run(cfg, s, script).tx.value.id == s.tx.value.id && Inv(cfg, Run(cfg, s, script))
    ensures Offers(Run(cfg, s, script).marks) == Offers(s.marks)
  {
    if script != [] {
      var init, last := script[..|script| - 1], script[|script| - 1];
      LockoutIsForever(cfg, s, init);
      LockedStep(cfg, last.env, Run(cfg, s, init), last.event);
      StepKeeps(cfg, last.env, Run(cfg, s, init), last.event);
    }
  }

  // ---------- after a commit ----------

  predicate AfterCommit(st: State) {
    st == ExitAuthorized || st == Exiting || st == Completed || st == FaultLockout
  }

  /** Released: only the way out is open, in a state reached by committing. */
  predicate Released(s: Eng) {
    s.tx.Some? && AfterCommit(s.tx.value.state) && !s.tx.value.outputs.entryGreen && !s.tx.value.outputs.entryOpen
  }

  /** An accepted ticket releases the truck. */
  lemma CommitReleases(cfg: Config, env: Env, s: Eng, e: Event)
    requires Inv(cfg, s) && Step(cfg, env, s, e).offered.Some? && Step(cfg, env, s, e).ok
    ensures Released(Step(cfg, env, s, e).eng) && Step(cfg, env, s, e).eng.tx.value.outputs.exitOpen
  {
    OfferComesFromAFrame(cfg, env, s, e);
  }

  /** What would let the truck in again: identity accepted anew on a proof of a clear deck and an empty scale. */
  predicate EntryGuard(cfg: Config, s: Eng)
    requires s.tx.Some?
  {
    var p := s.tx.value.pos;
    && p.safetyClear && !p.frontPresent && !p.rearPresent
    && s.lastScale.Some? && s.lastScale.value.reading.Sound()
    && s.lastScale.value.reading.stable && Abs(s.lastScale.value.reading.kg) <= cfg.emptyMax
  }

  predicate BothRead(s: Eng)
    requires s.tx.Some?
  {
    !TagBad(s) && s.tx.value.tag.tag != "" && !PlateBad(s) && s.tx.value.plate.plate != ""
  }

  /** The registry expects another plate than the one read. */
  predicate Mismatches(env: Env, s: Eng)
    requires s.tx.Some?
  {
    var t, look := s.tx.value, Resolve(env, s.tx.value.tag.tag);
    BothRead(s) && look.Mapped? && VehicleKey(env.u, look.plate) != VehicleKey(env.u, t.plate.plate)
  }

  /** Identity would be accepted: both channels agree, or a confirmed override stands in for the one that is down. */
  predicate Accepts(env: Env, s: Eng)
    requires s.tx.Some?
  {
    var t, look := s.tx.value, Resolve(env, s.tx.value.tag.tag);
    if BothRead(s) then look.Mapped? && VehicleKey(env.u, look.plate) == VehicleKey(env.u, t.plate.plate)
    else if TagBad(s) && !PlateBad(s) && t.plate.plate != "" && HasOverride(t, Rfid, IdentityConfirmed) then true
    else PlateBad(s) && !TagBad(s) && t.tag.tag != "" && HasOverride(t, Lpr, IdentityConfirmed) && look.Mapped?
  }

  predicate Live(s: Eng)
    requires s.tx.Some?
  {
    s.tx.value.state != FaultLockout && s.tx.value.state != Completed
  }

  /** Re-evaluating identity in this state authorises entry. */
  predicate Reauthorizes(cfg: Config, env: Env, s: Eng)
    requires s.tx.Some?
  {
    Live(s) && Accepts(env, s) && EntryGuard(cfg, s)
  }

  /** Re-evaluating identity in this state abandons the release: a plate mismatch, which opens nothing, or a new authorisation. */
  predicate Leaves(cfg: Config, env: Env, s: Eng)
    requires s.tx.Some?
  {
    (Live(s) && Mismatches(env, s)) || Reauthorizes(cfg, env, s)
  }

  lemma AuthorizeLeavesExactly(cfg: Config, s: Eng, t: Tx)
    requires Released(s) && s.tx.value.state != FaultLockout && t.identity == IdAccepted
    requires t.state == s.tx.value.state && t.pos == s.tx.value.pos && t.outputs == s.tx.value.outputs
    ensures Released(TryAuthorize(cfg, Set(s, t))) <==> !EntryGuard(cfg, s)
  {
  }

  lemma IdentityLeavesExactly(cfg: Config, env: Env, s: Eng)
    requires Released(s)
    ensures Released(EvaluateIdentity(cfg, env, s)) <==> !Leaves(cfg, env, s)
  {
    hide TryAuthorize, EntryGuard, VehicleKey, HasOverride, TagBad, PlateBad;
    var t := s.tx.value;
    if t.state != FaultLockout && t.state != Completed {
      var look := Resolve(env, t.tag.tag);
      AuthorizeLeavesExactly(cfg, s, t.(identity := IdAccepted, reason := ChannelsMatch));
      AuthorizeLeavesExactly(cfg, s, t.(identity := IdAccepted, reason := TagDegraded, mode := Degraded));
      if look.Mapped? {
        AuthorizeLeavesExactly(cfg, s, t.(plate := PlateRead(look.plate, "", Faulty, t.tag.observed),
                                          identity := IdAccepted, reason := PlateDegraded, mode := Degraded));
      }
    }
  }

  function Repositioned(s: Eng, d: Device): (r: Eng)
    requires s.tx.Some?
    ensures r.tx.Some?
  {
    if d == FrontSensor || d == RearSensor then EvaluatePosition(s) else s
  }

  function Refaulted(s: Eng, faults: map<Device, Fault>): (r: Eng)
    requires s.tx.Some?
    ensures r.tx.Some?
  {
    UpdateMode(SyncFaults(s.(faults := faults)))
  }

  function Granted(env: Env, s: Eng, o: Override): (r: Eng)
    requires s.tx.Some?
    ensures r.tx.Some?
  {
    var dated := if o.authorizedAt == 0 then o.(authorizedAt := env.now) else o;
    UpdateMode(Set(s, s.tx.value.(overrides := s.tx.value.overrides + [dated])))
  }

  /** The state in which event e re-evaluates identity, if it does. */
  function AtIdentity(cfg: Config, env: Env, s: Eng, e: Event): (at: Option<Eng>)
    requires s.tx.Some?
    ensures at.Some? ==> at.value.tx.Some?
  {
    match e
    case SeeTag(tag) => if Belongs(s.tx.value, tag.observed) then Some(Set(s, s.tx.value.(tag := tag))) else None
    case SeePlate(plate) => if Belongs(s.tx.value, plate.observed) then Some(Set(s, s.tx.value.(plate := plate))) else None
    case SetFault(f) => if f.Locking() then None else Some(Repositioned(Refaulted(s, s.faults[f.device := f]), f.device))
    case ClearFault(d) => Some(Repositioned(Refaulted(s, s.faults - {d}), d))
    case Grant(o) =>
      if !Grantable(s, o) then None
      else
        var s1 := Granted(env, s, o);
        Some(if o.device == FrontSensor || o.device == RearSensor then TryReady(EvaluatePosition(s1)) else s1)
    case _ => None
  }

  predicate Reopens(cfg: Config, env: Env, s: Eng, e: Event)
    requires s.tx.Some?
  {
    var at := AtIdentity(cfg, env, s, e);
    at.Some? && Leaves(cfg, env, at.value)
  }

  lemma HelpersKeepRelease(cfg: Config, s: Eng)
    requires Released(s)
    ensures Released(UpdateMode(s)) && Released(EvaluatePosition(s)) && Released(TryReady(s)) && Approaching(cfg, s) == s
    ensures UpdateMode(s).tx.value.state == s.tx.value.state
  {
    PositionShape(s);
  }

  lemma FaultMapKeepsRelease(cfg: Config, s: Eng, faults: map<Device, Fault>, d: Device)
    requires Released(s)
    ensures Released(Repositioned(Refaulted(s, faults), d))
  {
    var s0 := SyncFaults(s.(faults := faults));
    HelpersKeepRelease(cfg, s0);
    HelpersKeepRelease(cfg, UpdateMode(s0));
  }

  lemma OverrideKeepsRelease(cfg: Config, env: Env, s: Eng, o: Override)
    requires Released(s)
    ensures var s1 := Granted(env, s, o); Released(s1) && Released(TryReady(EvaluatePosition(s1)))
  {
    var dated := if o.authorizedAt == 0 then o.(authorizedAt := env.now) else o;
    var s0 := Set(s, s.tx.value.(overrides := s.tx.value.overrides + [dated]));
    HelpersKeepRelease(cfg, s0);
    HelpersKeepRelease(cfg, UpdateMode(s0));
    HelpersKeepRelease(cfg, EvaluatePosition(UpdateMode(s0)));
  }

  lemma PreparingKeepsRelease(cfg: Config, env: Env, s: Eng, e: Event)
    requires Released(s)
    ensures var at := AtIdentity(cfg, env, s, e); at.Some? ==> Released(at.value)
  {
    match e
    case SetFault(f) => FaultMapKeepsRelease(cfg, s, s.faults[f.device := f], f.device);
    case ClearFault(d) => FaultMapKeepsRelease(cfg, s, s.faults - {d}, d);
    case Grant(o) => OverrideKeepsRelease(cfg, env, s, o);
    case _ =>
  }

  lemma StepAtIdentity(cfg: Config, env: Env, s: Eng, e: Event)
    requires s.tx.Some? && !e.SeePosition? && !e.SeeScale? && e != Reset
    ensures var at, out := AtIdentity(cfg, env, s, e), Step(cfg, env, s, e);
            && out.offered.None?
            && (at.Some? ==> at.value.tx.Some? && out.eng == EvaluateIdentity(cfg, env, at.value))
            && (at.None? ==> out.eng == s || (e.SetFault? && out.eng == Lock(SyncFaults(s.(faults := s.faults[e.f.device := e.f])))))
  {
  }

  lemma PositionKeepsRelease(cfg: Config, env: Env, s: Eng, p: Position)
    requires Released(s)
    ensures Released(OnPosition(cfg, env, s, p))
  {
    var s1 := Set(s, s.tx.value.(pos := p));
    HelpersKeepRelease(cfg, s1);
    HelpersKeepRelease(cfg, EvaluatePosition(s1));
  }

  lemma ReleasedNeverWeighs(cfg: Config, s: Eng)
    requires Released(s)
    ensures Released(EnterWeighing(cfg, s)) && EnterWeighing(cfg, s).tx.value.state != Weighing
  {
    HelpersKeepRelease(cfg, s);
  }

  lemma ScaleKeepsRelease(cfg: Config, env: Env, s: Eng, a: Audited)
    requires Released(s)
    ensures Released(OnScale(cfg, env, s, a).eng) && OnScale(cfg, env, s, a).offered.None?
  {
    hide EnterWeighing, Weigh, CommitTicket;
    var s0 := Receive(s, a);
    var f := SyncFaults(s0.(faults := s0.faults - {Scale}));
    assert Released(f);
    ReleasedNeverWeighs(cfg, f);
  }

  /** One event, Reset apart, abandons a release exactly when it re-evaluates identity into an open guard; none offers a ticket. */
  lemma ReleasedStep(cfg: Config, env: Env, s: Eng, e: Event)
    requires Released(s) && e != Reset
    ensures Released(Step(cfg, env, s, e).eng) <==> !Reopens(cfg, env, s, e)
    ensures Step(cfg, env, s, e).offered.None?
  {
    if e.SeePosition? {
      PositionKeepsRelease(cfg, env, s, e.p);
    } else if e.SeeScale? {
      ScaleKeepsRelease(cfg, env, s, e.a);
    } else {
      PreparingKeepsRelease(cfg, env, s, e);
      StepAtIdentity(cfg, env, s, e);
      var at := AtIdentity(cfg, env, s, e);
      if at.Some? { IdentityLeavesExactly(cfg, env, at.value); }
    }
  }

  predicate StepReopens(cfg: Config, s: Eng, script: seq<Timed>, k: nat)
    requires k < |script|
  {
    var now := Run(cfg, s, script[..k]);
    now.tx.Some? && Reopens(cfg, script[k].env, now, script[k].event)
  }

  predicate ReleasedAt(cfg: Config, s: Eng, script: seq<Timed>, k: nat)
    requires k <= |script|
  {
    Released(Run(cfg, s, script[..k]))
  }

  lemma NextReleased(cfg: Config, s: Eng, script: seq<Timed>, k: nat)
    requires k < |script| && ReleasedAt(cfg, s, script, k) && script[k].event != Reset
    ensures ReleasedAt(cfg, s, script, k + 1) <==> !StepReopens(cfg, s, script, k)
  {
    assert script[..k + 1][..k] == script[..k];
    ReleasedStep(cfg, script[k].env, Run(cfg, s, script[..k]), script[k].event);
  }

  lemma {:induction false} ReleasedUpTo(cfg: Config, s: Eng, script: seq<Timed>, k: nat)
    requires Released(s) && k <= |script| && forall i :: 0 <= i < |script| ==> script[i].event != Reset
    requires forall i :: 0 <= i < |script| ==> !StepReopens(cfg, s, script, i)
    ensures ReleasedAt(cfg, s, script, k)
  {
    if k == 0 {
      assert script[..0] == [];
    } else {
      ReleasedUpTo(cfg, s, script, k - 1);
      NextReleased(cfg, s, script, k - 1);
    }
  }

  /** Over any run without a reset, the release holds throughout exactly when no event reopens it at its turn. */
  lemma ReleaseHoldsExactly(cfg: Config, s: Eng, script: seq<Timed>)
    requires Released(s) && forall k :: 0 <= k < |script| ==> script[k].event != Reset
    ensures (forall k :: 0 <= k <= |script| ==> ReleasedAt(cfg, s, script, k))
            <==> (forall k :: 0 <= k < |script| ==> !StepReopens(cfg, s, script, k))
  {
    if forall k :: 0 <= k < |script| ==> !StepReopens(cfg, s, script, k) {
      forall k | 0 <= k <= |script| ensures ReleasedAt(cfg, s, script, k) {
        ReleasedUpTo(cfg, s, script, k);
      }
    }
    if forall k :: 0 <= k <= |script| ==> ReleasedAt(cfg, s, script, k) {
      forall k | 0 <= k < |script| ensures !StepReopens(cfg, s, script, k) {
        assert ReleasedAt(cfg, s, script, k) && ReleasedAt(cfg, s, script, k + 1);
        NextReleased(cfg, s, script, k);
      }
    }
  }

  predicate Routine(e: Event) {
    e.SeePosition? || e.SeeScale? || (e.SetFault? && e.f.Locking())
  }

  lemma RoutineNeverReopens(cfg: Config, env: Env, s: Eng, e: Event)
    requires s.tx.Some? && Routine(e)
    ensures !Reopens(cfg, env, s, e)
  {
  }

  /** With only position, scale and critical-fault events after a commit, the transaction never offers another ticket, never
      asks for both barriers, and moves only through the exit states, completion or lockout. */
  lemma {:induction false} RoutineReleaseHolds(cfg: Config, s: Eng, script: seq<Timed>)
    requires Inv(cfg, s) && Released(s) && forall k :: 0 <= k < |script| ==> Routine(script[k].event)
    ensures var r := Run(cfg, s, script);
            Inv(cfg, r) && Released(r) && r.tx.value.id == s.tx.value.id && Offers(r.marks) == Offers(s.marks)
  {
    if script != [] {
      var init, last := script[..|script| - 1], script[|script| - 1];
      RoutineReleaseHolds(cfg, s, init);
      var now := Run(cfg, s, init);
      RoutineNeverReopens(cfg, last.env, now, last.event);
      ReleasedStep(cfg, last.env, now, last.event);
      StepKeeps(cfg, last.env, now, last.event);
    }
  }

  /** So a transaction whose first ticket is accepted, and that sees only such events afterwards, offers exactly that one. */
  lemma RoutineTransactionOffersOnce(cfg: Config, env: Env, s: Eng, e: Event, script: seq<Timed>)
    requires Inv(cfg, s) && Offers(s.marks) == 0 && Step(cfg, env, s, e).offered.Some? && Step(cfg, env, s, e).ok
    requires forall k :: 0 <= k < |script| ==> Routine(script[k].event)
    ensures var r := Run(cfg, Step(cfg, env, s, e).eng, script);
            Released(r) && r.tx.value.id == Step(cfg, env, s, e).eng.tx.value.id && Offers(r.marks) == 1
  {
    hide Step, Inv, Released;
    StepKeeps(cfg, env, s, e);
    CommitReleases(cfg, env, s, e);
    RoutineReleaseHolds(cfg, Step(cfg, env, s, e).eng, script);
  }
}
