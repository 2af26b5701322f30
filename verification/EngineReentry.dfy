/**
 When a truck is let in again: exactly which events authorise entry, when both barriers are asked to open at once, and when a
 transaction that has offered a ticket offers another.
 */
module EngineReentry {
  import opened Domain
  import opened Pairing
  import opened EngineSpec
  import opened EngineProofs
  import opened EngineTheorems

  // ---------- which events authorise entry ----------

  /** Identity is accepted and the truck not yet let in. */
  predicate Waiting(s: Eng)
    requires s.tx.Some?
  {
    s.tx.value.identity == IdAccepted && (s.tx.value.state == Approach || s.tx.value.state == Identifying)
  }

  /** This event authorises entry: a position or a frame under an identity already accepted, or a re-evaluation of identity
      that accepts it, and in each case an open entry guard. */
  predicate Authorizes(cfg: Config, env: Env, s: Eng, e: Event)
    requires s.tx.Some?
  {
    match e
    case SeePosition(p) => Waiting(s) && EntryGuard(cfg, Set(s, s.tx.value.(pos := p)))
    case SeeScale(a) => a.rawRef.Present() && a.reading.Sound() && Waiting(s) && EntryGuard(cfg, Receive(s, a))
    case _ => var at := AtIdentity(cfg, env, s, e); at.Some? && Reauthorizes(cfg, env, at.value)
  }

  function Authorizations(m: seq<Mark>): nat {
    if m == [] then 0 else Authorizations(m[..|m| - 1]) + if m[|m| - 1].Authorized? then 1 else 0
  }

  /** From s to s' the history gained this many authorisations. */
  predicate Gained(s: Eng, s': Eng, n: nat) {
    Authorizations(s'.marks) == Authorizations(s.marks) + n
  }

  lemma OneMore(m: seq<Mark>, x: Mark)
    ensures Authorizations(m + [x]) == Authorizations(m) + if x.Authorized? then 1 else 0
  {
    Marked(m, x);
  }

  lemma NoGain(s: Eng, s': Eng)
    requires s'.marks == s.marks
    ensures Gained(s, s', 0)
  {
  }

  lemma TryGains(cfg: Config, s: Eng)
    requires s.tx.Some? && s.tx.value.identity == IdAccepted && s.tx.value.state != FaultLockout
    ensures Gained(s, TryAuthorize(cfg, s), if EntryGuard(cfg, s) then 1 else 0)
  {
    OneMore(s.marks, Authorized(s.tx.value, s.lastScale));
  }

  lemma IdentityGains(cfg: Config, env: Env, s: Eng)
    requires s.tx.Some?
    ensures Gained(s, EvaluateIdentity(cfg, env, s), if Reauthorizes(cfg, env, s) then 1 else 0)
  {
    hide TryAuthorize, VehicleKey, HasOverride, Gained, TagBad, PlateBad;
    var t := s.tx.value;
    NoGain(s, s);
    NoGain(s, GoManual(s));
    if Live(s) {
      var look := Resolve(env, t.tag.tag);
      TryFrom(cfg, s, t.(identity := IdAccepted, reason := ChannelsMatch,
                         state := if t.state == IdentityMismatch then Identifying else t.state));
      TryFrom(cfg, s, t.(identity := IdAccepted, reason := TagDegraded, mode := Degraded));
      if look.Mapped? {
        TryFrom(cfg, s, t.(plate := PlateRead(look.plate, "", Faulty, t.tag.observed),
                           identity := IdAccepted, reason := PlateDegraded, mode := Degraded));
        if Mismatches(env, s) { NoGain(s, CrossCheck(cfg, env, s)); }
      }
    }
  }

  lemma TryFrom(cfg: Config, s: Eng, t: Tx)
    requires s.tx.Some? && t.identity == IdAccepted && t.state != FaultLockout && t.pos == s.tx.value.pos
    ensures Gained(s, TryAuthorize(cfg, Set(s, t)), if EntryGuard(cfg, s) then 1 else 0)
  {
    TryGains(cfg, Set(s, t));
  }

  lemma GainedTwice(a: Eng, b: Eng, c: Eng, n: nat)
    requires Gained(a, b, 0) && Gained(b, c, n)
    ensures Gained(a, c, n)
  {
  }

  lemma ReadyGainsNothing(s: Eng)
    requires s.tx.Some?
    ensures Gained(s, TryReady(s), 0)
  {
    OneMore(s.marks, Ready(s.tx.value, s.lastScale));
  }

  lemma OnDeckGainsNothing(s: Eng, p: Position)
    requires s.tx.Some?
    ensures Gained(s, OnDeck(s, p), 0)
  {
    hide EvaluatePosition, TryReady, Gained;
    var t := s.tx.value;
    var s1 := if p.frontPresent && t.state == EntryAuthorized then Set(s, t.(state := Entering)) else s;
    var t1 := s1.tx.value;
    var s2 := if t1.state == Entering || t1.state == EntryAuthorized then Set(s1, t1.(state := Positioning)) else s1;
    PositionShape(s2);
    var s3 := EvaluatePosition(s2);
    NoGain(s, s1);
    NoGain(s, s3);
    ReadyGainsNothing(s3);
    GainedTwice(s, s3, TryReady(s3), 0);
  }

  lemma ApproachingGains(cfg: Config, s: Eng)
    requires s.tx.Some?
    ensures Gained(s, Approaching(cfg, s), if Waiting(s) && EntryGuard(cfg, s) then 1 else 0)
  {
    hide TryAuthorize, Gained;
    NoGain(s, s);
    if Waiting(s) { TryGains(cfg, s); }
  }

  lemma GainsOnward(a: Eng, b: Eng, c: Eng, n: nat)
    requires Gained(a, b, n) && Gained(b, c, 0)
    ensures Gained(a, c, n)
  {
  }

  lemma PositionGains(cfg: Config, env: Env, s: Eng, p: Position)
    requires s.tx.Some?
    ensures Gained(s, OnPosition(cfg, env, s, p), if Authorizes(cfg, env, s, SeePosition(p)) then 1 else 0)
  {
    hide Approaching, OnDeck, Gained;
    var s1 := Set(s, s.tx.value.(pos := p));
    var n := if Waiting(s1) && EntryGuard(cfg, s1) then 1 else 0;
    NoGain(s, s1);
    if Live(s1) {
      var a := Approaching(cfg, s1);
      ApproachingGains(cfg, s1);
      OnDeckGainsNothing(a, p);
      GainsOnward(s1, a, OnDeck(a, p), n);
      NoGain(OnDeck(a, p), Leaving(env, OnDeck(a, p), p));
      GainsOnward(s1, OnDeck(a, p), Leaving(env, OnDeck(a, p), p), n);
      GainedTwice(s, s1, Leaving(env, OnDeck(a, p), p), n);
    }
  }

  lemma WeighingGainsNothing(cfg: Config, env: Env, s: Eng, a: Audited)
    requires s.tx.Some?
    ensures Gained(s, WeighAndCommit(cfg, env, s, a).eng, 0)
  {
    if env.sink.Store? {
      var ticket := TicketFor(cfg, env, Weigh(cfg, s, a).tx.value, a);
      OneMore(s.marks, Offered(ticket, env.sink.commit(ticket)));
    }
  }

  lemma ScaleGains(cfg: Config, env: Env, s: Eng, a: Audited)
    requires s.tx.Some?
    ensures Gained(s, OnScale(cfg, env, s, a).eng, if Authorizes(cfg, env, s, SeeScale(a)) then 1 else 0)
  {
    hide Approaching, WeighAndCommit, TryReady, Gained;
    var out := OnScale(cfg, env, s, a);
    var s0 := Receive(s, a);
    var f := SyncFaults(s0.(faults := s0.faults - {Scale}));
    if a.rawRef.Present() && a.reading.Sound() && Live(s) {
      var n := if Waiting(f) && EntryGuard(cfg, f) then 1 else 0;
      NoGain(s, f);
      ApproachingGains(cfg, f);
      var b := Approaching(cfg, f);
      ReadyGainsNothing(b);
      var w := EnterWeighing(cfg, f);
      NoGain(TryReady(b), w);
      GainsOnward(b, TryReady(b), w, 0);
      GainsOnward(f, b, w, n);
      WeighingGainsNothing(cfg, env, w, a);
      GainsOnward(f, w, out.eng, n);
      GainedTwice(s, f, out.eng, n);
    } else {
      NoGain(s, out.eng);
    }
  }

  lemma PreparingGains(cfg: Config, env: Env, s: Eng, e: Event)
    requires s.tx.Some?
    ensures var at := AtIdentity(cfg, env, s, e); at.Some? ==> Gained(s, at.value, 0)
  {
    hide EvaluatePosition, TryReady, Gained, UpdateMode;
    var at := AtIdentity(cfg, env, s, e);
    if e.Grant? && at.Some? {
      var s1 := Granted(env, s, e.o);
      GrantMarksNothing(env, s, e.o);
      PositionShape(s1);
      NoGain(s, s1);
      NoGain(s, EvaluatePosition(s1));
      ReadyGainsNothing(EvaluatePosition(s1));
      GainedTwice(s, EvaluatePosition(s1), TryReady(EvaluatePosition(s1)), 0);
    } else if at.Some? {
      if e.SetFault? { FaultMarksNothing(s, s.faults[e.f.device := e.f], e.f.device); }
      if e.ClearFault? { FaultMarksNothing(s, s.faults - {e.d}, e.d); }
      NoGain(s, at.value);
    }
  }

  lemma GrantMarksNothing(env: Env, s: Eng, o: Override)
    requires s.tx.Some?
    ensures Granted(env, s, o).marks == s.marks
  {
  }

  lemma FaultMarksNothing(s: Eng, faults: map<Device, Fault>, d: Device)
    requires s.tx.Some?
    ensures Repositioned(Refaulted(s, faults), d).marks == s.marks
  {
    PositionShape(Refaulted(s, faults));
  }

  lemma NoIdentityAtReset(cfg: Config, env: Env, s: Eng)
    requires s.tx.Some?
    ensures AtIdentity(cfg, env, s, Reset).None?
  {
  }

  /** An event authorises entry, and says so in the history, exactly then. */
  lemma AuthorizesExactly(cfg: Config, env: Env, s: Eng, e: Event)
    requires s.tx.Some?
    ensures Authorizations(Step(cfg, env, s, e).eng.marks) == Authorizations(s.marks) + if Authorizes(cfg, env, s, e) then 1 else 0
  {
    hide OnPosition, OnScale, AtIdentity, EvaluateIdentity, Reauthorizes;
    if e.SeePosition? {
      PositionGains(cfg, env, s, e.p);
    } else if e.SeeScale? {
      ScaleGains(cfg, env, s, e.a);
    } else if e == Reset {
      NoIdentityAtReset(cfg, env, s);
    } else {
      StepAtIdentity(cfg, env, s, e);
      PreparingGains(cfg, env, s, e);
      var at := AtIdentity(cfg, env, s, e);
      if at.Some? { IdentityGains(cfg, env, at.value); }
    }
  }

  // ---------- both barriers at once ----------

  predicate ExitOpen(s: Eng) {
    s.tx.Some? && s.tx.value.outputs.exitOpen
  }

  predicate BothOpen(s: Eng) {
    ExitOpen(s) && s.tx.value.outputs.entryOpen
  }

  /** The engine once a sound frame is received. */
  function Heard(s: Eng, a: Audited): (r: Eng)
    requires s.tx.Some?
    ensures r.tx.Some?
  {
    SyncFaults(Receive(s, a).(faults := Receive(s, a).faults - {Scale}))
  }

  /** The event is a frame that ends a streak: it is weighed, and the counter reaches the configured length. */
  predicate EndsStreak(cfg: Config, s: Eng, e: Event)
    requires s.tx.Some?
  {
    && e.SeeScale? && e.a.rawRef.Present() && e.a.reading.Sound() && Live(s)
    && var w := EnterWeighing(cfg, Heard(s, e.a));
       && w.tx.value.state == Weighing
       && var n := Weigh(cfg, w, e.a).tx.value.confirmations; n > 0 && n >= cfg.confirmations
  }

  /** Entry authorised while the exit is open, by an event that does not commit at once. */
  predicate Clashes(cfg: Config, env: Env, s: Eng, e: Event) {
    ExitOpen(s) && Authorizes(cfg, env, s, e) && !EndsStreak(cfg, s, e)
  }

  lemma TryOpens(cfg: Config, s: Eng, t: Tx)
    requires s.tx.Some? && !BothOpen(s) && t.identity == IdAccepted && t.state != FaultLockout
    requires t.pos == s.tx.value.pos && t.outputs == s.tx.value.outputs
    ensures BothOpen(TryAuthorize(cfg, Set(s, t))) <==> ExitOpen(s) && EntryGuard(cfg, s)
  {
  }

  lemma IdentityOpens(cfg: Config, env: Env, s: Eng)
    requires s.tx.Some? && !BothOpen(s)
    ensures BothOpen(EvaluateIdentity(cfg, env, s)) <==> ExitOpen(s) && Reauthorizes(cfg, env, s)
  {
    hide TryAuthorize, VehicleKey, HasOverride, TagBad, PlateBad, EntryGuard;
    var t := s.tx.value;
    if Live(s) {
      var look := Resolve(env, t.tag.tag);
      TryOpens(cfg, s, t.(identity := IdAccepted, reason := ChannelsMatch,
                          state := if t.state == IdentityMismatch then Identifying else t.state));
      TryOpens(cfg, s, t.(identity := IdAccepted, reason := TagDegraded, mode := Degraded));
      if look.Mapped? {
        TryOpens(cfg, s, t.(plate := PlateRead(look.plate, "", Faulty, t.tag.observed),
                            identity := IdAccepted, reason := PlateDegraded, mode := Degraded));
      }
    }
  }

  lemma ModeOutputs(s: Eng)
    requires s.tx.Some?
    ensures UpdateMode(s).tx.value.outputs == s.tx.value.outputs
  {
  }

  lemma RepositionedOutputs(s: Eng, d: Device)
    requires s.tx.Some?
    ensures var o, r := s.tx.value.outputs, Repositioned(s, d).tx.value.outputs; r == o || r == EntryOff(o)
  {
    PositionShape(s);
  }

  lemma ReadyOutputs(s: Eng)
    requires s.tx.Some?
    ensures Live(TryReady(s)) ==> TryReady(s).tx.value.outputs == s.tx.value.outputs
    ensures BothOpen(TryReady(s)) ==> BothOpen(s)
  {
  }

  lemma PreparingOpens(cfg: Config, env: Env, s: Eng, e: Event)
    requires s.tx.Some? && !BothOpen(s)
    ensures var at := AtIdentity(cfg, env, s, e);
            at.Some? ==> !BothOpen(at.value) && (Live(at.value) ==> ExitOpen(at.value) == ExitOpen(s))
  {
    hide EvaluatePosition, TryReady, UpdateMode, Repositioned;
    match e
    case SetFault(f) =>
      ModeOutputs(SyncFaults(s.(faults := s.faults[f.device := f])));
      RepositionedOutputs(Refaulted(s, s.faults[f.device := f]), f.device);
    case ClearFault(d) =>
      ModeOutputs(SyncFaults(s.(faults := s.faults - {d})));
      RepositionedOutputs(Refaulted(s, s.faults - {d}), d);
    case Grant(o) =>
      var dated := if o.authorizedAt == 0 then o.(authorizedAt := env.now) else o;
      ModeOutputs(Set(s, s.tx.value.(overrides := s.tx.value.overrides + [dated])));
      PositionShape(Granted(env, s, o));
      ReadyOutputs(EvaluatePosition(Granted(env, s, o)));
    case _ =>
  }

  lemma PositionOpens(cfg: Config, env: Env, s: Eng, p: Position)
    requires s.tx.Some? && !BothOpen(s)
    ensures BothOpen(OnPosition(cfg, env, s, p)) <==> ExitOpen(s) && Authorizes(cfg, env, s, SeePosition(p))
  {
    hide TryAuthorize, OnDeck, EvaluatePosition;
    var s1 := Set(s, s.tx.value.(pos := p));
    if Live(s1) {
      if Waiting(s1) { TryOpens(cfg, s1, s1.tx.value); }
      var a := Approaching(cfg, s1);
      if Waiting(s1) && EntryGuard(cfg, s1) {
        ClearDeck(a, p);
        JustAuthorized(cfg, s1);
        assert Leaving(env, a, p) == a;
      } else {
        DeckOpensNothing(a, p);
        LeavingOpensNothing(env, OnDeck(a, p), p);
      }
    }
  }

  lemma JustAuthorized(cfg: Config, s: Eng)
    requires s.tx.Some? && Waiting(s) && EntryGuard(cfg, s)
    ensures TryAuthorize(cfg, s).tx.value.state == EntryAuthorized
  {
  }

  lemma ClearDeck(s: Eng, p: Position)
    requires s.tx.Some? && !p.frontPresent && !p.rearPresent
    ensures OnDeck(s, p) == s
  {
  }

  lemma DeckOpensNothing(s: Eng, p: Position)
    requires s.tx.Some? && !BothOpen(s)
    ensures !BothOpen(OnDeck(s, p))
  {
    hide EvaluatePosition, TryReady;
    var t := s.tx.value;
    var s1 := if p.frontPresent && t.state == EntryAuthorized then Set(s, t.(state := Entering)) else s;
    var t1 := s1.tx.value;
    var s2 := if t1.state == Entering || t1.state == EntryAuthorized then Set(s1, t1.(state := Positioning)) else s1;
    PositionShape(s2);
    ReadyOutputs(EvaluatePosition(s2));
  }

  lemma LeavingOpensNothing(env: Env, s: Eng, p: Position)
    requires s.tx.Some? && !BothOpen(s)
    ensures !BothOpen(Leaving(env, s, p))
  {
  }

  /** What becomes of the outputs once weighing begins or does not. */
  lemma EnterWeighingOpens(cfg: Config, f: Eng)
    requires f.tx.Some? && !BothOpen(f) && f.lastScale.Some? && f.lastScale.value.reading.Sound()
    ensures BothOpen(EnterWeighing(cfg, f)) <==> ExitOpen(f) && Waiting(f) && EntryGuard(cfg, f)
  {
    hide TryAuthorize;
    if Waiting(f) { TryOpens(cfg, f, f.tx.value); SameScale(cfg, f); }
  }

  lemma SameScale(cfg: Config, s: Eng)
    requires s.tx.Some?
    ensures TryAuthorize(cfg, s).lastScale == s.lastScale
  {
  }

  lemma WeighingOpens(cfg: Config, env: Env, w: Eng, a: Audited)
    requires w.tx.Some?
    ensures var n := Weigh(cfg, w, a).tx.value.confirmations;
            BothOpen(WeighAndCommit(cfg, env, w, a).eng)
            <==> BothOpen(w) && !(w.tx.value.state == Weighing && n > 0 && n >= cfg.confirmations)
  {
  }

  lemma HeardCases(cfg: Config, env: Env, s: Eng, a: Audited)
    requires s.tx.Some?
    ensures var out := OnScale(cfg, env, s, a);
            if a.rawRef.Present() && a.reading.Sound() && Live(s)
            then out == WeighAndCommit(cfg, env, EnterWeighing(cfg, Heard(s, a)), a)
            else out.offered.None? && (out.eng.tx.value.outputs == s.tx.value.outputs || out.eng.tx.value.outputs == ALL_OFF)
                 && out.eng.tx.value.state in {s.tx.value.state, FaultLockout}
  {
    hide EnterWeighing, WeighAndCommit;
  }

  lemma ScaleOpens(cfg: Config, env: Env, s: Eng, a: Audited)
    requires s.tx.Some? && !BothOpen(s)
    ensures BothOpen(OnScale(cfg, env, s, a).eng) <==> Clashes(cfg, env, s, SeeScale(a))
  {
    hide EnterWeighing, WeighAndCommit, OnScale, Weigh;
    HeardCases(cfg, env, s, a);
    if a.rawRef.Present() && a.reading.Sound() && Live(s) {
      var f := Heard(s, a);
      EnterWeighingOpens(cfg, f);
      WeighingOpens(cfg, env, EnterWeighing(cfg, f), a);
    }
  }

  lemma StartOpensNothing(cfg: Config, env: Env, s: Eng, e: Event)
    requires s.tx.None?
    ensures !BothOpen(Step(cfg, env, s, e).eng)
  {
    hide OnDeck, Leaving, EvaluatePosition, AuxDevices;
    if e.SeePosition? && e.p.entryPresent {
      var s0 := Start(env, s, e.p.observed);
      var s1 := Set(s0, s0.tx.value.(pos := e.p));
      assert Approaching(cfg, s1) == s1;
      DeckOpensNothing(s1, e.p);
      LeavingOpensNothing(env, OnDeck(s1, e.p), e.p);
    }
  }

  /** One event leaves both barriers asked to open, where they were not before, exactly when it authorises entry while the exit
      is open and does not commit at once. */
  lemma BothOpenStep(cfg: Config, env: Env, s: Eng, e: Event)
    requires !BothOpen(s)
    ensures BothOpen(Step(cfg, env, s, e).eng) <==> Clashes(cfg, env, s, e)
  {
    hide OnPosition, OnScale, AtIdentity, EvaluateIdentity, Reauthorizes, EndsStreak;
    if s.tx.None? {
      StartOpensNothing(cfg, env, s, e);
    } else if e.SeePosition? {
      PositionOpens(cfg, env, s, e.p);
      OnlyFramesEnd(cfg, s, e);
    } else if e.SeeScale? {
      ScaleOpens(cfg, env, s, e.a);
    } else if e == Reset {
      NoIdentityAtReset(cfg, env, s);
    } else {
      StepAtIdentity(cfg, env, s, e);
      PreparingOpens(cfg, env, s, e);
      OnlyFramesEnd(cfg, s, e);
      var at := AtIdentity(cfg, env, s, e);
      if at.Some? {
        IdentityOpens(cfg, env, at.value);
        if Reauthorizes(cfg, env, at.value) { LiveToReauthorize(cfg, env, at.value); }
      }
    }
  }

  lemma OnlyFramesEnd(cfg: Config, s: Eng, e: Event)
    requires s.tx.Some? && !e.SeeScale?
    ensures !EndsStreak(cfg, s, e)
  {
  }

  lemma LiveToReauthorize(cfg: Config, env: Env, s: Eng)
    requires s.tx.Some? && Reauthorizes(cfg, env, s)
    ensures Live(s)
  {
  }

  /** In a released transaction the only way is a re-evaluation of identity that accepts it with an open entry guard. */
  lemma ReleasedOpensBoth(cfg: Config, env: Env, s: Eng, e: Event)
    requires Released(s)
    ensures var at := AtIdentity(cfg, env, s, e);
            BothOpen(Step(cfg, env, s, e).eng) <==> ExitOpen(s) && at.Some? && Reauthorizes(cfg, env, at.value)
  {
    hide Step, Reauthorizes, EndsStreak;
    BothOpenStep(cfg, env, s, e);
    if !e.SeeScale? { OnlyFramesEnd(cfg, s, e); }
  }

  predicate BothOpenAt(cfg: Config, s: Eng, script: seq<Timed>, k: nat)
    requires k <= |script|
  {
    BothOpen(Run(cfg, s, script[..k]))
  }

  predicate ClashAt(cfg: Config, s: Eng, script: seq<Timed>, k: nat)
    requires k < |script|
  {
    Clashes(cfg, script[k].env, Run(cfg, s, script[..k]), script[k].event)
  }

  lemma Turn(cfg: Config, s: Eng, script: seq<Timed>, k: nat)
    requires k < |script|
    ensures Run(cfg, s, script[..k + 1]) == Step(cfg, script[k].env, Run(cfg, s, script[..k]), script[k].event).eng
  {
    assert script[..k + 1][..k] == script[..k];
  }

  lemma {:induction false} ClashBefore(cfg: Config, s: Eng, script: seq<Timed>, k: nat)
    requires !BothOpen(s) && k <= |script| && BothOpenAt(cfg, s, script, k)
    ensures exists j :: 0 <= j < k && ClashAt(cfg, s, script, j)
  {
    hide Step, BothOpen, Clashes;
    assert script[..0] == [];
    Turn(cfg, s, script, k - 1);
    if BothOpenAt(cfg, s, script, k - 1) {
      ClashBefore(cfg, s, script, k - 1);
    } else {
      BothOpenStep(cfg, script[k - 1].env, Run(cfg, s, script[..k - 1]), script[k - 1].event);
      assert ClashAt(cfg, s, script, k - 1);
    }
  }

  /** Over every run, from a new engine on, both barriers are asked to open at once at some moment if and only if some event
      authorises entry while the exit is open and does not commit at once. */
  lemma BothOpenExactly(cfg: Config, s: Eng, script: seq<Timed>)
    requires !BothOpen(s)
    ensures (exists k :: 0 <= k <= |script| && BothOpenAt(cfg, s, script, k)) <==> (exists k :: 0 <= k < |script| && ClashAt(cfg, s, script, k))
  {
    hide Step, BothOpen, Clashes;
    if k :| 0 <= k <= |script| && BothOpenAt(cfg, s, script, k) { ClashBefore(cfg, s, script, k); }
    if k :| 0 <= k < |script| && ClashAt(cfg, s, script, k) {
      Turn(cfg, s, script, k);
      if !BothOpenAt(cfg, s, script, k) {
        BothOpenStep(cfg, script[k].env, Run(cfg, s, script[..k]), script[k].event);
        assert BothOpenAt(cfg, s, script, k + 1);
      }
    }
  }

  // ---------- another ticket ----------

  /** The truck is not let in: neither on its way to the deck nor weighing, and the entry is shut. */
  predicate NotLetIn(s: Eng) {
    && s.tx.Some? && !BeforeWeigh(s.tx.value.state) && s.tx.value.state != Weighing
    && !s.tx.value.outputs.entryGreen && !s.tx.value.outputs.entryOpen
  }

  lemma TryStaysOut(cfg: Config, s: Eng, t: Tx)
    requires NotLetIn(s) && t.pos == s.tx.value.pos && t.outputs == s.tx.value.outputs
    requires !BeforeWeigh(t.state) && t.state != Weighing && !EntryGuard(cfg, s)
    ensures NotLetIn(TryAuthorize(cfg, Set(s, t)))
  {
  }

  lemma IdentityStaysOut(cfg: Config, env: Env, s: Eng)
    requires NotLetIn(s) && !Reauthorizes(cfg, env, s)
    ensures NotLetIn(EvaluateIdentity(cfg, env, s))
  {
    hide TryAuthorize, VehicleKey, HasOverride, TagBad, PlateBad, EntryGuard;
    var t := s.tx.value;
    if Live(s) && Accepts(env, s) {
      var look := Resolve(env, t.tag.tag);
      TryStaysOut(cfg, s, t.(identity := IdAccepted, reason := ChannelsMatch,
                             state := if t.state == IdentityMismatch then Identifying else t.state));
      TryStaysOut(cfg, s, t.(identity := IdAccepted, reason := TagDegraded, mode := Degraded));
      if look.Mapped? {
        TryStaysOut(cfg, s, t.(plate := PlateRead(look.plate, "", Faulty, t.tag.observed),
                               identity := IdAccepted, reason := PlateDegraded, mode := Degraded));
      }
    }
  }

  lemma HelpersStayOut(s: Eng)
    requires NotLetIn(s)
    ensures NotLetIn(UpdateMode(s)) && NotLetIn(EvaluatePosition(s)) && NotLetIn(TryReady(s))
  {
    PositionShape(s);
  }

  lemma PreparingStaysOut(cfg: Config, env: Env, s: Eng, e: Event)
    requires NotLetIn(s)
    ensures var at := AtIdentity(cfg, env, s, e); at.Some? ==> NotLetIn(at.value)
  {
    hide EvaluatePosition, TryReady, UpdateMode;
    match e
    case SetFault(f) =>
      HelpersStayOut(SyncFaults(s.(faults := s.faults[f.device := f])));
      HelpersStayOut(Refaulted(s, s.faults[f.device := f]));
    case ClearFault(d) =>
      HelpersStayOut(SyncFaults(s.(faults := s.faults - {d})));
      HelpersStayOut(Refaulted(s, s.faults - {d}));
    case Grant(o) =>
      var dated := if o.authorizedAt == 0 then o.(authorizedAt := env.now) else o;
      HelpersStayOut(Set(s, s.tx.value.(overrides := s.tx.value.overrides + [dated])));
      HelpersStayOut(Granted(env, s, o));
      HelpersStayOut(EvaluatePosition(Granted(env, s, o)));
    case _ =>
  }

  lemma ApproachingStaysOut(cfg: Config, s: Eng)
    requires NotLetIn(s) && !(Waiting(s) && EntryGuard(cfg, s))
    ensures NotLetIn(Approaching(cfg, s))
  {
    hide TryAuthorize, EntryGuard;
    if Waiting(s) { TryStaysOut(cfg, s, s.tx.value); }
  }

  lemma DeckStaysOut(s: Eng, p: Position)
    requires NotLetIn(s)
    ensures NotLetIn(OnDeck(s, p))
  {
    hide EvaluatePosition, TryReady;
    HelpersStayOut(s);
    HelpersStayOut(EvaluatePosition(s));
  }

  lemma LeavingStaysOut(env: Env, s: Eng, p: Position)
    requires NotLetIn(s)
    ensures NotLetIn(Leaving(env, s, p))
  {
  }

  lemma PositionStaysOut(cfg: Config, env: Env, s: Eng, p: Position)
    requires NotLetIn(s) && !Authorizes(cfg, env, s, SeePosition(p))
    ensures NotLetIn(OnPosition(cfg, env, s, p))
  {
    hide Approaching, OnDeck, Leaving;
    var s1 := Set(s, s.tx.value.(pos := p));
    if Live(s1) {
      ApproachingStaysOut(cfg, s1);
      DeckStaysOut(Approaching(cfg, s1), p);
      LeavingStaysOut(env, OnDeck(Approaching(cfg, s1), p), p);
    }
  }

  lemma ScaleStaysOut(cfg: Config, env: Env, s: Eng, a: Audited)
    requires NotLetIn(s) && !Authorizes(cfg, env, s, SeeScale(a))
    ensures NotLetIn(OnScale(cfg, env, s, a).eng) && !EndsStreak(cfg, s, SeeScale(a))
  {
    hide Approaching, WeighAndCommit, OnScale, TryReady;
    HeardCases(cfg, env, s, a);
    if a.rawRef.Present() && a.reading.Sound() && Live(s) {
      var f := Heard(s, a);
      ApproachingStaysOut(cfg, f);
      HelpersStayOut(Approaching(cfg, f));
      var w := EnterWeighing(cfg, f);
      NothingToWeigh(cfg, env, w, a);
    } else {
      SameTruck(cfg, env, s, a);
    }
  }

  lemma NothingToWeigh(cfg: Config, env: Env, w: Eng, a: Audited)
    requires w.tx.Some? && w.tx.value.state != Weighing
    ensures WeighAndCommit(cfg, env, w, a).eng == w
  {
  }

  lemma SameTruck(cfg: Config, env: Env, s: Eng, a: Audited)
    requires s.tx.Some? && !(a.rawRef.Present() && a.reading.Sound() && Live(s))
    ensures OnScale(cfg, env, s, a).eng.tx.Some?
  {
    hide EnterWeighing, WeighAndCommit;
  }

  /** A truck that is not let in stays out, and offers no ticket, until an event authorises entry. */
  lemma StaysOut(cfg: Config, env: Env, s: Eng, e: Event)
    requires NotLetIn(s) && !Authorizes(cfg, env, s, e) && Step(cfg, env, s, e).eng.tx.Some?
    ensures NotLetIn(Step(cfg, env, s, e).eng) && !EndsStreak(cfg, s, e)
  {
    hide OnPosition, OnScale, AtIdentity, EvaluateIdentity, Reauthorizes, EndsStreak;
    if e.SeePosition? {
      PositionStaysOut(cfg, env, s, e.p);
      OnlyFramesEnd(cfg, s, e);
    } else if e.SeeScale? {
      ScaleStaysOut(cfg, env, s, e.a);
    } else if e == Reset {
      OnlyFramesEnd(cfg, s, e);
    } else {
      OnlyFramesEnd(cfg, s, e);
      StepAtIdentity(cfg, env, s, e);
      PreparingStaysOut(cfg, env, s, e);
      var at := AtIdentity(cfg, env, s, e);
      if at.Some? { IdentityStaysOut(cfg, env, at.value); }
    }
  }

  /** A ticket is offered exactly by a frame that ends a streak, given a store. */
  lemma OfferedExactly(cfg: Config, env: Env, s: Eng, e: Event)
    requires s.tx.Some?
    ensures Step(cfg, env, s, e).offered.Some? <==> EndsStreak(cfg, s, e) && env.sink.Store?
  {
    hide OnScale, EnterWeighing, Weigh, EvaluateIdentity, OnPosition;
    if e.SeeScale? { HeardCases(cfg, env, s, e.a); }
  }

  predicate AuthorizesAt(cfg: Config, s: Eng, script: seq<Timed>, k: nat)
    requires k < |script|
  {
    var now := Run(cfg, s, script[..k]);
    now.tx.Some? && Authorizes(cfg, script[k].env, now, script[k].event)
  }

  predicate TicketAt(cfg: Config, s: Eng, script: seq<Timed>, k: nat)
    requires k < |script|
  {
    var now := Run(cfg, s, script[..k]);
    now.tx.Some? && EndsStreak(cfg, now, script[k].event) && script[k].env.sink.Store?
  }

  /** The transaction lasts: no reset of the run is accepted. */
  predicate Lasts(cfg: Config, s: Eng, script: seq<Timed>) {
    forall k :: 0 <= k <= |script| ==> Run(cfg, s, script[..k]).tx.Some?
  }

  function OffersBy(cfg: Config, s: Eng, script: seq<Timed>, k: nat): nat
    requires k <= |script|
  {
    Offers(Run(cfg, s, script[..k]).marks)
  }

  lemma {:induction false} OutUpTo(cfg: Config, s: Eng, script: seq<Timed>, k: nat)
    requires NotLetIn(s) && Lasts(cfg, s, script) && k <= |script|
    requires forall j :: 0 <= j < k ==> !AuthorizesAt(cfg, s, script, j)
    ensures NotLetIn(Run(cfg, s, script[..k]))
  {
    hide Step, NotLetIn, Authorizes;
    assert script[..0] == [];
    if k > 0 {
      OutUpTo(cfg, s, script, k - 1);
      Turn(cfg, s, script, k - 1);
      assert !AuthorizesAt(cfg, s, script, k - 1) && Run(cfg, s, script[..k]).tx.Some? && Run(cfg, s, script[..k - 1]).tx.Some?;
      StaysOut(cfg, script[k - 1].env, Run(cfg, s, script[..k - 1]), script[k - 1].event);
    }
  }

  lemma NextOffer(cfg: Config, s: Eng, script: seq<Timed>, k: nat)
    requires Inv(cfg, s) && Lasts(cfg, s, script) && k < |script|
    ensures OffersBy(cfg, s, script, k + 1) == OffersBy(cfg, s, script, k) + if TicketAt(cfg, s, script, k) then 1 else 0
  {
    hide Step, Inv, EndsStreak;
    var now := Run(cfg, s, script[..k]);
    EveryStateInv(cfg, s, script[..k]);
    Turn(cfg, s, script, k);
    assert now.tx.Some? && Run(cfg, s, script[..k + 1]).tx.Some?;
    StepKeeps(cfg, script[k].env, now, script[k].event);
    OfferedExactly(cfg, script[k].env, now, script[k].event);
  }

  lemma {:induction false} OffersCount(cfg: Config, s: Eng, script: seq<Timed>, k: nat)
    requires Inv(cfg, s) && Lasts(cfg, s, script) && k <= |script|
    ensures OffersBy(cfg, s, script, k) >= Offers(s.marks)
    ensures OffersBy(cfg, s, script, k) > Offers(s.marks) <==> exists i :: 0 <= i < k && TicketAt(cfg, s, script, i)
  {
    hide Run, Inv, TicketAt;
    if k == 0 {
      NoTurn(cfg, s, script);
    } else {
      OffersCount(cfg, s, script, k - 1);
      NextOffer(cfg, s, script, k - 1);
    }
  }

  lemma NoTurn(cfg: Config, s: Eng, script: seq<Timed>)
    ensures Run(cfg, s, script[..0]) == s
  {
  }

  /** While the transaction of a truck that is not let in lasts, it offers a ticket if and only if an event authorises entry and
      that one or a later one ends a streak. */
  lemma TicketNeedsEntryExactly(cfg: Config, s: Eng, script: seq<Timed>)
    requires Inv(cfg, s) && NotLetIn(s) && Lasts(cfg, s, script)
    ensures Offers(Run(cfg, s, script).marks) > Offers(s.marks)
            <==> exists j, k :: 0 <= j <= k < |script| && AuthorizesAt(cfg, s, script, j) && TicketAt(cfg, s, script, k)
  {
    hide Run, Inv, Authorizes, EndsStreak, NotLetIn;
    assert script[..|script|] == script;
    OffersCount(cfg, s, script, |script|);
    if k :| 0 <= k < |script| && TicketAt(cfg, s, script, k) {
      if forall j :: 0 <= j <= k ==> !AuthorizesAt(cfg, s, script, j) {
        OutUpTo(cfg, s, script, k);
        var now := Run(cfg, s, script[..k]);
        assert !AuthorizesAt(cfg, s, script, k);
        EndsOnlyLetIn(cfg, script[k].env, now, script[k].event);
      }
    }
  }

  lemma EndsOnlyLetIn(cfg: Config, env: Env, s: Eng, e: Event)
    requires NotLetIn(s) && EndsStreak(cfg, s, e)
    ensures Authorizes(cfg, env, s, e)
  {
    hide Authorizes;
    if !Authorizes(cfg, env, s, e) { ScaleStaysOut(cfg, env, s, e.a); }
  }

  /** After a ticket is offered, accepted or not, its transaction offers another exactly when entry is authorised anew and then a
      streak completed. */
  lemma AnotherTicketExactly(cfg: Config, env: Env, s: Eng, e: Event, script: seq<Timed>)
    requires Inv(cfg, s) && Step(cfg, env, s, e).offered.Some? && Lasts(cfg, Step(cfg, env, s, e).eng, script)
    ensures var after := Step(cfg, env, s, e).eng;
            Offers(Run(cfg, after, script).marks) > Offers(after.marks)
            <==> exists j, k :: 0 <= j <= k < |script| && AuthorizesAt(cfg, after, script, j) && TicketAt(cfg, after, script, k)
  {
    hide Inv, Run, AuthorizesAt, TicketAt;
    StepKeeps(cfg, env, s, e);
    OfferShutsOut(cfg, env, s, e);
    TicketNeedsEntryExactly(cfg, Step(cfg, env, s, e).eng, script);
  }

  lemma OfferShutsOut(cfg: Config, env: Env, s: Eng, e: Event)
    requires Step(cfg, env, s, e).offered.Some?
    ensures NotLetIn(Step(cfg, env, s, e).eng)
  {
    hide EvaluateIdentity, OnPosition, EnterWeighing;
  }
}
