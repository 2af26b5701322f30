/**
 What the engine's decisions rest on, told from the observations, the faults and the overrides alone: when a position is accepted and
 when a transaction completes.
 */
module EngineLaws {
  import opened Domain
  import opened Pairing
  import opened EngineSpec
  import opened EngineProofs
  import opened EngineTheorems
  import opened EngineReentry

  // ---------- the position ----------

  /** An override that still stands confirms the position in place of this sensor. */
  predicate Confirmed(t: Tx, sensor: Device) {
    exists i :: 0 <= i < |t.overrides| && t.overrides[i].device == sensor && t.overrides[i].expiredAt.None?
                && PositionConfirmed in t.overrides[i].evidence
  }

  /** The truck stands on the deck: both deck sensors see it, or one does and a confirmed override stands for the other, faulty one. */
  predicate OnTheDeck(s: Eng)
    requires s.tx.Some?
  {
    var t, frontFaulty, rearFaulty := s.tx.value, FrontSensor in s.faults, RearSensor in s.faults;
    || (!frontFaulty && !rearFaulty && t.pos.frontPresent && t.pos.rearPresent)
    || (frontFaulty && !rearFaulty && t.pos.rearPresent && Confirmed(t, FrontSensor))
    || (rearFaulty && !frontFaulty && t.pos.frontPresent && Confirmed(t, RearSensor))
  }

  /** Evaluating the position accepts it exactly for a truck that stands on the deck, and then shuts the entry and nothing else;
      with both sensors faulty it goes to a person, and otherwise it waits. */
  lemma PositionAcceptedExactly(s: Eng)
    requires s.tx.Some?
    ensures var t, r := s.tx.value, EvaluatePosition(s);
            && (r.tx.value.position == PosAccepted <==> OnTheDeck(s))
            && (r.tx.value.position == PosManual <==> FrontSensor in s.faults && RearSensor in s.faults)
            && (OnTheDeck(s) ==>
                 && !r.tx.value.outputs.entryGreen && !r.tx.value.outputs.entryOpen
                 && r.tx.value.outputs == t.outputs.(entryGreen := false, entryOpen := false))
            && (!OnTheDeck(s) ==> r.tx.value.outputs == t.outputs)
            && r.tx.value.mode == (if FrontSensor in s.faults && RearSensor in s.faults then Manual
                                   else if OnTheDeck(s) && (FrontSensor in s.faults || RearSensor in s.faults) then Degraded
                                   else t.mode)
            && r == s.(tx := Some(t.(position := r.tx.value.position, mode := r.tx.value.mode, outputs := r.tx.value.outputs)))
  {
    assert HasOverride(s.tx.value, FrontSensor, PositionConfirmed) <==> Confirmed(s.tx.value, FrontSensor);
    assert HasOverride(s.tx.value, RearSensor, PositionConfirmed) <==> Confirmed(s.tx.value, RearSensor);
  }

  /** What the deck rule reads, and the position, are as they were. */
  predicate SameDeck(s: Eng, r: Eng) {
    && s.tx.Some? && r.tx.Some? && r.faults == s.faults && r.tx.value.pos == s.tx.value.pos
    && r.tx.value.overrides == s.tx.value.overrides && r.tx.value.position == s.tx.value.position
  }

  /** The position in r is accepted only if it was in s or the deck rule holds in r. */
  predicate Rests(s: Eng, r: Eng) {
    r.tx.Some? && r.tx.value.position == PosAccepted ==> (s.tx.Some? && s.tx.value.position == PosAccepted) || OnTheDeck(r)
  }

  lemma SameDeckRests(a: Eng, b: Eng, c: Eng)
    requires Rests(a, b) && SameDeck(b, c)
    ensures Rests(a, c)
  {
  }

  lemma TryKeepsDeck(cfg: Config, s: Eng)
    requires s.tx.Some?
    ensures SameDeck(s, TryAuthorize(cfg, s)) && SameDeck(s, TryReady(s)) && SameDeck(s, UpdateMode(s)) && SameDeck(s, Lock(s))
  {
  }

  lemma TryFromKeepsDeck(cfg: Config, s: Eng, t: Tx)
    requires s.tx.Some? && t.pos == s.tx.value.pos && t.overrides == s.tx.value.overrides && t.position == s.tx.value.position
    ensures SameDeck(s, TryAuthorize(cfg, Set(s, t))) && SameDeck(s, Set(s, t))
  {
  }

  lemma IdentityKeepsDeck(cfg: Config, env: Env, s: Eng)
    requires s.tx.Some?
    ensures SameDeck(s, EvaluateIdentity(cfg, env, s))
  {
    hide TryAuthorize, VehicleKey, HasOverride, TagBad, PlateBad, SameDeck;
    var t := s.tx.value;
    var look := Resolve(env, t.tag.tag);
    TryFromKeepsDeck(cfg, s, t);
    TryFromKeepsDeck(cfg, s, t.(identity := IdManual, mode := Manual));
    TryFromKeepsDeck(cfg, s, t.(identity := IdAccepted, reason := ChannelsMatch,
                                state := if t.state == IdentityMismatch then Identifying else t.state));
    TryFromKeepsDeck(cfg, s, t.(identity := IdAccepted, reason := TagDegraded, mode := Degraded));
    if look.Mapped? {
      TryFromKeepsDeck(cfg, s, t.(identity := IdMismatch, reason := PlateExpected(look.plate, t.plate.plate),
                                  state := IdentityMismatch, outputs := EntryOff(t.outputs)));
      TryFromKeepsDeck(cfg, s, t.(plate := PlateRead(look.plate, "", Faulty, t.tag.observed),
                                  identity := IdAccepted, reason := PlateDegraded, mode := Degraded));
    }
    assert Set(s, t) == s;
  }

  lemma EvaluationRests(s: Eng)
    requires s.tx.Some?
    ensures Rests(s, EvaluatePosition(s)) && EvaluatePosition(s).faults == s.faults
    ensures EvaluatePosition(s).tx.value.pos == s.tx.value.pos && EvaluatePosition(s).tx.value.overrides == s.tx.value.overrides
  {
    PositionAcceptedExactly(s);
  }

  lemma DeckRests(s: Eng, p: Position)
    requires s.tx.Some?
    ensures Rests(s, OnDeck(s, p)) && OnDeck(s, p).tx.Some?
  {
    hide EvaluatePosition, TryReady, OnTheDeck;
    var t := s.tx.value;
    var s1 := if p.frontPresent && t.state == EntryAuthorized then Set(s, t.(state := Entering)) else s;
    var t1 := s1.tx.value;
    var s2 := if t1.state == Entering || t1.state == EntryAuthorized then Set(s1, t1.(state := Positioning)) else s1;
    EvaluationRests(s2);
    TryKeepsDeck(Config("", 0, 0, 0, 0), EvaluatePosition(s2));
    SameDeckRests(s2, EvaluatePosition(s2), TryReady(EvaluatePosition(s2)));
  }

  lemma LeavingKeepsDeck(env: Env, s: Eng, p: Position)
    requires s.tx.Some?
    ensures SameDeck(s, Leaving(env, s, p))
  {
  }

  lemma PositionRests(cfg: Config, env: Env, s: Eng, p: Position)
    requires s.tx.Some?
    ensures Rests(s, OnPosition(cfg, env, s, p))
  {
    hide Approaching, OnDeck, Leaving, OnTheDeck;
    var s1 := Set(s, s.tx.value.(pos := p));
    if Live(s1) {
      var a := Approaching(cfg, s1);
      ApproachKeepsDeck(cfg, s1);
      DeckRests(a, p);
      LeavingKeepsDeck(env, OnDeck(a, p), p);
      SameDeckRests(a, OnDeck(a, p), Leaving(env, OnDeck(a, p), p));
    }
  }

  lemma ApproachKeepsDeck(cfg: Config, s: Eng)
    requires s.tx.Some?
    ensures SameDeck(s, Approaching(cfg, s))
  {
    hide TryAuthorize;
    TryKeepsDeck(cfg, s);
  }

  lemma FreshRests(cfg: Config, env: Env, s: Eng, p: Position)
    requires s.tx.None?
    ensures Rests(s, OnPosition(cfg, env, s, p))
  {
    hide Approaching, OnDeck, Leaving, AuxDevices, OnTheDeck;
    if p.entryPresent {
      var s0 := Start(env, s, p.observed);
      assert s0.tx.value.position == PosPending;
      PositionRests(cfg, env, s0, p);
      assert OnPosition(cfg, env, s, p) == OnPosition(cfg, env, s0, p);
    }
  }

  lemma ScaleRests(cfg: Config, env: Env, s: Eng, a: Audited)
    requires s.tx.Some?
    ensures OnScale(cfg, env, s, a).eng.tx.Some? && OnScale(cfg, env, s, a).eng.tx.value.position == s.tx.value.position
  {
    hide TryAuthorize, TryReady, Weigh;
    HeardCases(cfg, env, s, a);
    if a.rawRef.Present() && a.reading.Sound() && Live(s) {
      var f := Heard(s, a);
      TryKeepsDeck(cfg, f);
      TryKeepsDeck(cfg, Approaching(cfg, f));
      WeighingKeepsPosition(cfg, env, EnterWeighing(cfg, f), a);
    } else {
      DeafKeepsPosition(cfg, env, s, a);
    }
  }

  lemma WeighingKeepsPosition(cfg: Config, env: Env, s: Eng, a: Audited)
    requires s.tx.Some?
    ensures WeighAndCommit(cfg, env, s, a).eng.tx.Some? && WeighAndCommit(cfg, env, s, a).eng.tx.value.position == s.tx.value.position
  {
  }

  lemma DeafKeepsPosition(cfg: Config, env: Env, s: Eng, a: Audited)
    requires s.tx.Some? && !(a.rawRef.Present() && a.reading.Sound() && Live(s))
    ensures OnScale(cfg, env, s, a).eng.tx.Some? && OnScale(cfg, env, s, a).eng.tx.value.position == s.tx.value.position
  {
    hide EnterWeighing, WeighAndCommit;
  }

  lemma PreparingRests(cfg: Config, env: Env, s: Eng, e: Event)
    requires s.tx.Some?
    ensures var at := AtIdentity(cfg, env, s, e); at.Some? ==> Rests(s, at.value)
  {
    hide EvaluatePosition, TryReady, UpdateMode, OnTheDeck;
    match e
    case SetFault(f) =>
      var s1 := SyncFaults(s.(faults := s.faults[f.device := f]));
      TryKeepsDeck(cfg, s1);
      EvaluationRests(UpdateMode(s1));
    case ClearFault(d) =>
      var s1 := SyncFaults(s.(faults := s.faults - {d}));
      TryKeepsDeck(cfg, s1);
      EvaluationRests(UpdateMode(s1));
    case Grant(o) =>
      var dated := if o.authorizedAt == 0 then o.(authorizedAt := env.now) else o;
      TryKeepsDeck(cfg, Set(s, s.tx.value.(overrides := s.tx.value.overrides + [dated])));
      EvaluationRests(Granted(env, s, o));
      TryKeepsDeck(cfg, EvaluatePosition(Granted(env, s, o)));
      SameDeckRests(Granted(env, s, o), EvaluatePosition(Granted(env, s, o)), TryReady(EvaluatePosition(Granted(env, s, o))));
    case _ =>
  }

  /** Whatever the event, a position newly accepted rests on the deck as the engine then knows it. */
  lemma StepRests(cfg: Config, env: Env, s: Eng, e: Event)
    ensures Rests(s, Step(cfg, env, s, e).eng)
  {
    hide OnPosition, OnScale, EvaluateIdentity, AtIdentity, OnTheDeck;
    if s.tx.None? {
      if e.SeePosition? { FreshRests(cfg, env, s, e.p); } else { IdleStaysIdle(cfg, env, s, e); }
    } else if e.SeePosition? {
      PositionRests(cfg, env, s, e.p);
    } else if e.SeeScale? {
      ScaleRests(cfg, env, s, e.a);
    } else if e != Reset {
      StepAtIdentity(cfg, env, s, e);
      PreparingRests(cfg, env, s, e);
      var at := AtIdentity(cfg, env, s, e);
      if at.Some? {
        IdentityKeepsDeck(cfg, env, at.value);
        SameDeckRests(s, at.value, EvaluateIdentity(cfg, env, at.value));
      }
    }
  }

  lemma IdleStaysIdle(cfg: Config, env: Env, s: Eng, e: Event)
    requires s.tx.None? && !e.SeePosition?
    ensures Step(cfg, env, s, e).eng.tx.None?
  {
  }

  // ---------- tickets and the deck ----------

  predicate MayWeigh(s: Eng)
    requires s.tx.Some?
  {
    s.tx.value.state == ReadyToWeigh || s.tx.value.state == Weighing
  }

  /** The position is accepted, or it was when weighing became possible. */
  predicate PastDeck(s: Eng) {
    s.tx.Some? && (s.tx.value.position == PosAccepted || MayWeigh(s))
  }

  /** Weighing becomes possible only with the position accepted. */
  predicate Climbs(s: Eng, r: Eng) {
    r.tx.Some? && MayWeigh(r) ==> PastDeck(s) || r.tx.value.position == PosAccepted
  }

  /** From b to c the position stays, and weighing does not become possible. */
  predicate Steady(b: Eng, c: Eng) {
    b.tx.Some? && c.tx.Some? && c.tx.value.position == b.tx.value.position && (MayWeigh(c) ==> MayWeigh(b))
  }

  lemma SteadyClimbs(a: Eng, b: Eng, c: Eng)
    requires Climbs(a, b) && Steady(b, c)
    ensures Climbs(a, c)
  {
  }

  lemma HelpersClimb(cfg: Config, s: Eng)
    requires s.tx.Some?
    ensures Climbs(s, EvaluatePosition(s)) && Climbs(s, TryReady(s)) && Climbs(s, TryReady(EvaluatePosition(s)))
  {
    hide EvaluatePosition, TryReady;
    EvaluationClimbs(s);
    ReadyClimbs(s);
    ReadyClimbs(EvaluatePosition(s));
  }

  lemma EvaluationClimbs(s: Eng)
    requires s.tx.Some?
    ensures EvaluatePosition(s).tx.value.state == s.tx.value.state
  {
    PositionShape(s);
  }

  lemma ReadyClimbs(s: Eng)
    requires s.tx.Some?
    ensures TryReady(s).tx.value.position == s.tx.value.position
    ensures MayWeigh(TryReady(s)) ==> MayWeigh(s) || s.tx.value.position == PosAccepted
  {
  }

  lemma HelpersAreSteady(cfg: Config, s: Eng)
    requires s.tx.Some?
    ensures Steady(s, TryAuthorize(cfg, s)) && Steady(s, UpdateMode(s)) && Steady(s, Lock(s)) && Steady(s, SyncFaults(s))
  {
  }

  lemma TryFromIsSteady(cfg: Config, s: Eng, t: Tx)
    requires s.tx.Some? && t.position == s.tx.value.position && (t.state == s.tx.value.state || t.state == Identifying || t.state == IdentityMismatch)
    ensures Steady(s, TryAuthorize(cfg, Set(s, t))) && Steady(s, Set(s, t))
  {
  }

  lemma IdentityIsSteady(cfg: Config, env: Env, s: Eng)
    requires s.tx.Some?
    ensures Steady(s, EvaluateIdentity(cfg, env, s))
  {
    hide TryAuthorize, VehicleKey, HasOverride, TagBad, PlateBad, Steady;
    var t := s.tx.value;
    var look := Resolve(env, t.tag.tag);
    TryFromIsSteady(cfg, s, t);
    TryFromIsSteady(cfg, s, t.(identity := IdManual, mode := Manual));
    TryFromIsSteady(cfg, s, t.(identity := IdAccepted, reason := ChannelsMatch,
                               state := if t.state == IdentityMismatch then Identifying else t.state));
    TryFromIsSteady(cfg, s, t.(identity := IdAccepted, reason := TagDegraded, mode := Degraded));
    if look.Mapped? {
      TryFromIsSteady(cfg, s, t.(identity := IdMismatch, reason := PlateExpected(look.plate, t.plate.plate),
                                 state := IdentityMismatch, outputs := EntryOff(t.outputs)));
      TryFromIsSteady(cfg, s, t.(plate := PlateRead(look.plate, "", Faulty, t.tag.observed),
                                 identity := IdAccepted, reason := PlateDegraded, mode := Degraded));
    }
    assert Set(s, t) == s;
  }

  lemma DeckClimbs(s: Eng, p: Position)
    requires s.tx.Some?
    ensures Climbs(s, OnDeck(s, p)) && OnDeck(s, p).tx.Some?
  {
    hide EvaluatePosition, TryReady;
    var t := s.tx.value;
    var s1 := if p.frontPresent && t.state == EntryAuthorized then Set(s, t.(state := Entering)) else s;
    var t1 := s1.tx.value;
    var s2 := if t1.state == Entering || t1.state == EntryAuthorized then Set(s1, t1.(state := Positioning)) else s1;
    HelpersClimb(Config("", 0, 0, 0, 0), s2);
  }

  lemma LeavingIsSteady(env: Env, s: Eng, p: Position)
    requires s.tx.Some?
    ensures Steady(s, Leaving(env, s, p))
  {
  }

  lemma PositionClimbs(cfg: Config, env: Env, s: Eng, p: Position)
    requires s.tx.Some?
    ensures Climbs(s, OnPosition(cfg, env, s, p))
  {
    hide Approaching, OnDeck, Leaving;
    var s1 := Set(s, s.tx.value.(pos := p));
    if Live(s1) {
      var a := Approaching(cfg, s1);
      ApproachIsSteady(cfg, s1);
      DeckClimbs(a, p);
      LeavingIsSteady(env, OnDeck(a, p), p);
      SteadyClimbs(a, OnDeck(a, p), Leaving(env, OnDeck(a, p), p));
    }
  }

  lemma ApproachIsSteady(cfg: Config, s: Eng)
    requires s.tx.Some?
    ensures Steady(s, Approaching(cfg, s))
  {
    hide TryAuthorize;
    HelpersAreSteady(cfg, s);
  }

  lemma FreshClimbs(cfg: Config, env: Env, s: Eng, p: Position)
    requires s.tx.None?
    ensures Climbs(s, OnPosition(cfg, env, s, p))
  {
    hide Approaching, OnDeck, Leaving, AuxDevices;
    if p.entryPresent {
      var s0 := Start(env, s, p.observed);
      assert !PastDeck(s0);
      PositionClimbs(cfg, env, s0, p);
      assert OnPosition(cfg, env, s, p) == OnPosition(cfg, env, s0, p);
    }
  }

  /** A scale frame makes weighing possible, and weighs, only past the deck. */
  lemma ScaleClimbs(cfg: Config, env: Env, s: Eng, a: Audited)
    requires s.tx.Some?
    ensures Climbs(s, OnScale(cfg, env, s, a).eng)
    ensures OnScale(cfg, env, s, a).offered.Some? ==> PastDeck(s)
  {
    hide Approaching, TryReady, Weigh;
    HeardCases(cfg, env, s, a);
    if a.rawRef.Present() && a.reading.Sound() && Live(s) {
      var f := Heard(s, a);
      ApproachIsSteady(cfg, f);
      HelpersClimb(cfg, Approaching(cfg, f));
      var w := EnterWeighing(cfg, f);
      TryKeepsDeck(cfg, Approaching(cfg, f));
      WeighingIsSteady(cfg, env, w, a);
    } else {
      DeafIsSteady(cfg, env, s, a);
    }
  }

  lemma WeighingIsSteady(cfg: Config, env: Env, s: Eng, a: Audited)
    requires s.tx.Some?
    ensures Steady(s, WeighAndCommit(cfg, env, s, a).eng)
    ensures WeighAndCommit(cfg, env, s, a).offered.Some? ==> s.tx.value.state == Weighing
  {
  }

  lemma DeafIsSteady(cfg: Config, env: Env, s: Eng, a: Audited)
    requires s.tx.Some? && !(a.rawRef.Present() && a.reading.Sound() && Live(s))
    ensures Steady(s, OnScale(cfg, env, s, a).eng) && OnScale(cfg, env, s, a).offered.None?
  {
    hide EnterWeighing, WeighAndCommit;
  }

  lemma PreparingClimbs(cfg: Config, env: Env, s: Eng, e: Event)
    requires s.tx.Some?
    ensures var at := AtIdentity(cfg, env, s, e); at.Some? ==> Climbs(s, at.value)
  {
    hide EvaluatePosition, TryReady, UpdateMode, MayWeigh;
    match e
    case SetFault(f) => SettledClimbs(cfg, s, s.faults[f.device := f]);
    case ClearFault(d) => SettledClimbs(cfg, s, s.faults - {d});
    case Grant(o) => GrantedClimbs(cfg, env, s, o);
    case _ => SameClimbs(cfg, env, s, e);
  }

  lemma SettledClimbs(cfg: Config, s: Eng, faults: map<Device, Fault>)
    requires s.tx.Some?
    ensures var s1 := UpdateMode(SyncFaults(s.(faults := faults))); Climbs(s, s1) && Climbs(s, EvaluatePosition(s1))
  {
    hide EvaluatePosition, UpdateMode;
    var s1 := SyncFaults(s.(faults := faults));
    HelpersAreSteady(cfg, s1);
    HelpersClimb(cfg, UpdateMode(s1));
  }

  lemma GrantedClimbs(cfg: Config, env: Env, s: Eng, o: Override)
    requires s.tx.Some?
    ensures Climbs(s, Granted(env, s, o)) && Climbs(s, TryReady(EvaluatePosition(Granted(env, s, o))))
  {
    hide EvaluatePosition, TryReady, UpdateMode;
    var dated := if o.authorizedAt == 0 then o.(authorizedAt := env.now) else o;
    HelpersAreSteady(cfg, Set(s, s.tx.value.(overrides := s.tx.value.overrides + [dated])));
    HelpersClimb(cfg, Granted(env, s, o));
  }

  lemma SameClimbs(cfg: Config, env: Env, s: Eng, e: Event)
    requires s.tx.Some? && !e.SetFault? && !e.ClearFault? && !e.Grant?
    ensures var at := AtIdentity(cfg, env, s, e); at.Some? ==> Climbs(s, at.value)
  {
  }

  lemma StepClimbs(cfg: Config, env: Env, s: Eng, e: Event)
    ensures Climbs(s, Step(cfg, env, s, e).eng)
    ensures Step(cfg, env, s, e).offered.Some? ==> PastDeck(s)
  {
    hide OnPosition, OnScale, EvaluateIdentity, AtIdentity;
    if s.tx.None? {
      if e.SeePosition? { FreshClimbs(cfg, env, s, e.p); } else { IdleStaysIdle(cfg, env, s, e); IdleOffersNothing(cfg, env, s, e); }
    } else if e.SeePosition? {
      PositionClimbs(cfg, env, s, e.p);
    } else if e.SeeScale? {
      ScaleClimbs(cfg, env, s, e.a);
    } else if e != Reset {
      StepAtIdentity(cfg, env, s, e);
      PreparingClimbs(cfg, env, s, e);
      var at := AtIdentity(cfg, env, s, e);
      if at.Some? {
        IdentityIsSteady(cfg, env, at.value);
        SteadyClimbs(s, at.value, EvaluateIdentity(cfg, env, at.value));
      }
    } else {
      ResetKeepsOrDrops(cfg, env, s);
    }
  }

  lemma ResetKeepsOrDrops(cfg: Config, env: Env, s: Eng)
    ensures var r := Step(cfg, env, s, Reset); r.offered.None? && (r.eng == s || r.eng.tx.None?)
  {
  }

  lemma IdleOffersNothing(cfg: Config, env: Env, s: Eng, e: Event)
    requires s.tx.None?
    ensures Step(cfg, env, s, e).offered.None?
  {
  }

  /** After j events the truck stood on the deck, and its transaction has lasted since. */
  predicate WasOnDeck(cfg: Config, s: Eng, script: seq<Timed>, j: nat)
    requires j <= |script|
  {
    && Run(cfg, s, script[..j]).tx.Some? && OnTheDeck(Run(cfg, s, script[..j]))
    && forall i :: j <= i <= |script| ==> Run(cfg, s, script[..i]).tx.Some?
  }

  lemma Extended(cfg: Config, s: Eng, script: seq<Timed>, last: Timed, j: nat)
    requires j <= |script| && WasOnDeck(cfg, s, script, j) && Run(cfg, s, script + [last]).tx.Some?
    ensures WasOnDeck(cfg, s, script + [last], j)
  {
    hide Run, OnTheDeck;
    var more := script + [last];
    assert more[..j] == script[..j];
    forall i | j <= i <= |more| ensures Run(cfg, s, more[..i]).tx.Some? {
      if i <= |script| { assert more[..i] == script[..i]; } else { assert more[..i] == more; }
    }
  }

  /** From a new engine, a transaction past the deck has been on it. */
  lemma {:induction false} PastDeckWasOnDeck(cfg: Config, script: seq<Timed>)
    requires PastDeck(Run(cfg, NEW_ENGINE, script))
    ensures exists j :: 0 <= j <= |script| && WasOnDeck(cfg, NEW_ENGINE, script, j)
  {
    hide Step, OnTheDeck, MayWeigh;
    if script != [] {
      var init, last := script[..|script| - 1], script[|script| - 1];
      var s := Run(cfg, NEW_ENGINE, init);
      assert init + [last] == script;
      StepRests(cfg, last.env, s, last.event);
      StepClimbs(cfg, last.env, s, last.event);
      if PastDeck(s) {
        PastDeckWasOnDeck(cfg, init);
        var j :| 0 <= j <= |init| && WasOnDeck(cfg, NEW_ENGINE, init, j);
        Extended(cfg, NEW_ENGINE, init, last, j);
      } else {
        assert script[..|script|] == script;
        assert WasOnDeck(cfg, NEW_ENGINE, script, |script|);
      }
    }
  }

  /** Every ticket offered in any run was preceded, in the same transaction, by a moment at which the truck stood on the deck: both
      deck sensors unfaulted and seeing it, or one of them seeing it and a confirmed override standing for the other, faulty one. */
  lemma TicketWasOnDeck(cfg: Config, env: Env, script: seq<Timed>, e: Event)
    requires Step(cfg, env, Run(cfg, NEW_ENGINE, script), e).offered.Some?
    ensures exists j :: 0 <= j <= |script| && WasOnDeck(cfg, NEW_ENGINE, script, j)
  {
    hide Step, WasOnDeck;
    StepClimbs(cfg, env, Run(cfg, NEW_ENGINE, script), e);
    PastDeckWasOnDeck(cfg, script);
  }
}
