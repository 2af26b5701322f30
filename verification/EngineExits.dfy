/**
 When a transaction completes: the truck was seen at the exit while it was authorised to leave, and then seen to be gone from it,
 with the safety input clear or a confirmed override in its place.
 */
module EngineExits {
  import opened Domain
  import opened Pairing
  import opened EngineSpec
  import opened EngineProofs
  import opened EngineTheorems
  import opened EngineReentry
  import opened EngineLaws

  /** The exit is clear: the safety input says so, or an override that still stands confirms it. */
  predicate ExitClear(t: Tx, p: Position) {
    p.safetyClear || exists i :: 0 <= i < |t.overrides| && t.overrides[i].device == ExitSensor && t.overrides[i].expiredAt.None?
                                 && ExitClearConfirmed in t.overrides[i].evidence
  }

  predicate Going(s: Eng) {
    s.tx.Some? && s.tx.value.state != Completed
  }

  /** From b to c the truck makes no progress towards the way out. */
  predicate Stays(b: Eng, c: Eng) {
    && b.tx.Some? && c.tx.Some? && c.lastScale == b.lastScale && c.tx.value.exitSeen == b.tx.value.exitSeen
    && (Exited(c.tx.value.state) ==> c.tx.value.state == b.tx.value.state)
  }

  lemma StaysTrans(a: Eng, b: Eng, c: Eng)
    requires Stays(a, b) && Stays(b, c)
    ensures Stays(a, c)
  {
  }

  lemma HelpersStay(cfg: Config, s: Eng)
    requires s.tx.Some?
    ensures Stays(s, TryAuthorize(cfg, s)) && Stays(s, UpdateMode(s)) && Stays(s, Lock(s)) && Stays(s, SyncFaults(s))
  {
  }

  lemma DeckHelpersStay(s: Eng)
    requires s.tx.Some?
    ensures Stays(s, EvaluatePosition(s)) && Stays(s, TryReady(s)) && Stays(s, TryReady(EvaluatePosition(s)))
    ensures EvaluatePosition(s).tx.value.overrides == s.tx.value.overrides && TryReady(s).tx.value.overrides == s.tx.value.overrides
    ensures TryReady(EvaluatePosition(s)).tx.value.overrides == s.tx.value.overrides
  {
    hide EvaluatePosition, TryReady;
    PositionShape(s);
    ReadyStays(s);
    ReadyStays(EvaluatePosition(s));
  }

  lemma ReadyStays(s: Eng)
    requires s.tx.Some?
    ensures Stays(s, TryReady(s)) && TryReady(s).tx.value.overrides == s.tx.value.overrides
  {
  }

  lemma TryFromStays(cfg: Config, s: Eng, t: Tx)
    requires s.tx.Some? && t.exitSeen == s.tx.value.exitSeen
    requires t.state == s.tx.value.state || t.state == Identifying || t.state == IdentityMismatch
    ensures Stays(s, TryAuthorize(cfg, Set(s, t))) && Stays(s, Set(s, t))
  {
  }

  lemma IdentityStays(cfg: Config, env: Env, s: Eng)
    requires s.tx.Some?
    ensures Stays(s, EvaluateIdentity(cfg, env, s))
  {
    hide TryAuthorize, VehicleKey, HasOverride, TagBad, PlateBad, Stays;
    var t := s.tx.value;
    var look := Resolve(env, t.tag.tag);
    TryFromStays(cfg, s, t);
    TryFromStays(cfg, s, t.(identity := IdManual, mode := Manual));
    TryFromStays(cfg, s, t.(identity := IdAccepted, reason := ChannelsMatch,
                            state := if t.state == IdentityMismatch then Identifying else t.state));
    TryFromStays(cfg, s, t.(identity := IdAccepted, reason := TagDegraded, mode := Degraded));
    if look.Mapped? {
      TryFromStays(cfg, s, t.(identity := IdMismatch, reason := PlateExpected(look.plate, t.plate.plate),
                              state := IdentityMismatch, outputs := EntryOff(t.outputs)));
      TryFromStays(cfg, s, t.(plate := PlateRead(look.plate, "", Faulty, t.tag.observed),
                              identity := IdAccepted, reason := PlateDegraded, mode := Degraded));
    }
    assert Set(s, t) == s;
  }

  lemma DeckStays(s: Eng, p: Position)
    requires s.tx.Some?
    ensures Stays(s, OnDeck(s, p)) && OnDeck(s, p).tx.value.overrides == s.tx.value.overrides
  {
    hide EvaluatePosition, TryReady;
    var t := s.tx.value;
    var s1 := if p.frontPresent && t.state == EntryAuthorized then Set(s, t.(state := Entering)) else s;
    var t1 := s1.tx.value;
    var s2 := if t1.state == Entering || t1.state == EntryAuthorized then Set(s1, t1.(state := Positioning)) else s1;
    DeckHelpersStay(s2);
  }

  lemma ArrivalStays(cfg: Config, s: Eng, p: Position)
    requires s.tx.Some?
    ensures Stays(s, OnDeck(Approaching(cfg, s), p))
    ensures OnDeck(Approaching(cfg, s), p).tx.value.overrides == s.tx.value.overrides
  {
    hide OnDeck, TryAuthorize;
    ApproachingStays(cfg, s);
    TryKeepsDeck(cfg, s);
    DeckStays(Approaching(cfg, s), p);
  }

  /** On its way out over a sound scale a truck is not stopped by what the deck shows. */
  lemma ArrivalKeepsExiting(cfg: Config, s: Eng, p: Position)
    requires s.tx.Some? && Sounded(s) && s.tx.value.state == Exiting
    ensures OnDeck(Approaching(cfg, s), p).tx.value.state == Exiting
  {
    hide EvaluatePosition;
    PositionShape(s);
  }

  lemma LeavingExactly(env: Env, s: Eng, p: Position)
    requires Going(s)
    ensures var t, r := s.tx.value, Leaving(env, s, p).tx.value;
            && (r.state == Completed <==> t.state == Exiting && t.exitSeen && !p.exitPresent && ExitClear(t, p))
            && (r.state == Exiting ==> t.state == Exiting || (t.state == ExitAuthorized && p.exitPresent))
            && (r.state == ExitAuthorized ==> t.state == ExitAuthorized)
            && (r.exitSeen <==> t.exitSeen || (t.state == ExitAuthorized && p.exitPresent))
            && Leaving(env, s, p).lastScale == s.lastScale
  {
    assert HasOverride(s.tx.value, ExitSensor, ExitClearConfirmed) || p.safetyClear <==> ExitClear(s.tx.value, p);
  }

  /** Behind a truck on its way out there is a sound scale frame, and it was seen at the exit. */
  predicate Sounded(s: Eng) {
    s.tx.Some? && Exited(s.tx.value.state) ==>
      && s.lastScale.Some? && s.lastScale.value.reading.Sound() && (s.tx.value.state == Exiting ==> s.tx.value.exitSeen)
  }

  /** What a position does to a transaction that is under way. */
  lemma PositionExactly(cfg: Config, env: Env, s: Eng, p: Position)
    requires Going(s) && Sounded(s)
    ensures var t, r := s.tx.value, OnPosition(cfg, env, s, p);
            && r.tx.Some? && Sounded(r)
            && (r.tx.value.state == Completed <==> t.state == Exiting && !p.exitPresent && ExitClear(t, p))
            && (r.tx.value.state == Exiting ==> t.state == Exiting || (t.state == ExitAuthorized && p.exitPresent))
  {
    hide Approaching, OnDeck, Leaving, ExitClear;
    var s1 := Set(s, s.tx.value.(pos := p));
    SameExit(s.tx.value, s1.tx.value, p);
    if s1.tx.value.state != FaultLockout {
      var d := OnDeck(Approaching(cfg, s1), p);
      ArrivalStays(cfg, s1, p);
      SameExit(s.tx.value, d.tx.value, p);
      if s.tx.value.state == Exiting { ArrivalKeepsExiting(cfg, s1, p); }
      LeavingExactly(env, d, p);
    }
  }

  lemma SameExit(t: Tx, u: Tx, p: Position)
    requires t.overrides == u.overrides
    ensures ExitClear(t, p) == ExitClear(u, p)
  {
  }

  lemma FreshIsNotLeaving(cfg: Config, env: Env, s: Eng, p: Position)
    requires s.tx.None?
    ensures var r := OnPosition(cfg, env, s, p); r.tx.Some? ==> !Exited(r.tx.value.state)
  {
    hide Approaching, OnDeck, Leaving, AuxDevices;
    if p.entryPresent {
      var s0 := Start(env, s, p.observed);
      assert !Exited(s0.tx.value.state);
      assert OnPosition(cfg, env, s, p) == OnPosition(cfg, env, s0, p);
      var s1 := Set(s0, s0.tx.value.(pos := p));
      if s1.tx.value.state != FaultLockout {
        ArrivalStays(cfg, s1, p);
        LeavingExactly(env, OnDeck(Approaching(cfg, s1), p), p);
      }
    }
  }

  lemma PreparingStays(cfg: Config, env: Env, s: Eng, e: Event)
    requires s.tx.Some?
    ensures var at := AtIdentity(cfg, env, s, e); at.Some? ==> Stays(s, at.value)
  {
    hide EvaluatePosition, TryReady, UpdateMode, Stays;
    match e
    case SetFault(f) => RefaultedStays(cfg, s, s.faults[f.device := f]);
    case ClearFault(d) => RefaultedStays(cfg, s, s.faults - {d});
    case Grant(o) => GrantedStays(cfg, env, s, o);
    case SeeTag(tag) => ReadingStays(s, s.tx.value.(tag := tag));
    case SeePlate(plate) => ReadingStays(s, s.tx.value.(plate := plate));
    case _ =>
  }

  lemma ReadingStays(s: Eng, t: Tx)
    requires s.tx.Some? && t.state == s.tx.value.state && t.exitSeen == s.tx.value.exitSeen
    ensures Stays(s, Set(s, t))
  {
  }

  lemma GrantedStays(cfg: Config, env: Env, s: Eng, o: Override)
    requires s.tx.Some?
    ensures var s1 := Granted(env, s, o); Stays(s, s1) && Stays(s, TryReady(EvaluatePosition(s1)))
  {
    hide EvaluatePosition, TryReady, UpdateMode;
    var dated := if o.authorizedAt == 0 then o.(authorizedAt := env.now) else o;
    HelpersStay(cfg, Set(s, s.tx.value.(overrides := s.tx.value.overrides + [dated])));
    DeckHelpersStay(Granted(env, s, o));
  }

  lemma RefaultedStays(cfg: Config, s: Eng, faults: map<Device, Fault>)
    requires s.tx.Some?
    ensures var s1 := UpdateMode(SyncFaults(s.(faults := faults))); Stays(s, s1) && Stays(s, EvaluatePosition(s1))
  {
    hide EvaluatePosition, UpdateMode;
    var s1 := SyncFaults(s.(faults := faults));
    HelpersStay(cfg, s1);
    DeckHelpersStay(UpdateMode(s1));
  }

  lemma ScaleIsSounded(cfg: Config, env: Env, s: Eng, a: Audited)
    requires s.tx.Some? && Sounded(s)
    ensures var r := OnScale(cfg, env, s, a).eng;
            r.tx.Some? && Sounded(r) && (r.tx.value.state == Completed || r.tx.value.state == Exiting ==> r.tx.value.state == s.tx.value.state)
  {
    hide Approaching, TryReady, Weigh;
    HeardCases(cfg, env, s, a);
    if a.rawRef.Present() && a.reading.Sound() && Live(s) {
      var f := Heard(s, a);
      ApproachingStays(cfg, f);
      DeckHelpersStay(Approaching(cfg, f));
      WeighingStays(cfg, env, EnterWeighing(cfg, f), a);
    } else {
      DeafIsSounded(cfg, env, s, a);
    }
  }

  lemma ApproachingStays(cfg: Config, s: Eng)
    requires s.tx.Some?
    ensures Stays(s, Approaching(cfg, s))
  {
    hide TryAuthorize;
    HelpersStay(cfg, s);
  }

  lemma WeighingStays(cfg: Config, env: Env, s: Eng, a: Audited)
    requires s.tx.Some?
    ensures var r := WeighAndCommit(cfg, env, s, a).eng;
            && r.tx.Some? && r.lastScale == s.lastScale && r.tx.value.exitSeen == s.tx.value.exitSeen
            && (Exited(r.tx.value.state) ==> r.tx.value.state == s.tx.value.state || r.tx.value.state == ExitAuthorized)
  {
  }

  lemma DeafIsSounded(cfg: Config, env: Env, s: Eng, a: Audited)
    requires s.tx.Some? && Sounded(s) && !(a.rawRef.Present() && a.reading.Sound() && Live(s))
    ensures var r := OnScale(cfg, env, s, a).eng;
            r.tx.Some? && Sounded(r) && (Exited(r.tx.value.state) ==> r.tx.value.state == s.tx.value.state)
  {
    hide EnterWeighing, WeighAndCommit;
  }

  /** A transaction under way completes with exactly one kind of event: a position that no longer shows the truck at the exit, after
      it was seen there, with the exit clear. And only a truck authorised to leave, seen at the exit, is on its way out. */
  lemma CompletesExactly(cfg: Config, env: Env, s: Eng, e: Event)
    requires Going(s) && Sounded(s)
    ensures var t, r := s.tx.value, Step(cfg, env, s, e).eng;
            && r.tx.Some? && Sounded(r)
            && (r.tx.value.state == Completed <==> e.SeePosition? && t.state == Exiting && !e.p.exitPresent && ExitClear(t, e.p))
            && (r.tx.value.state == Exiting ==>
                  t.state == Exiting || (e.SeePosition? && t.state == ExitAuthorized && e.p.exitPresent))
  {
    hide OnPosition, OnScale, EvaluateIdentity, AtIdentity, ExitClear;
    if e.SeePosition? {
      PositionExactly(cfg, env, s, e.p);
    } else if e.SeeScale? {
      ScaleIsSounded(cfg, env, s, e.a);
    } else if e != Reset {
      StepAtIdentity(cfg, env, s, e);
      PreparingStays(cfg, env, s, e);
      var at := AtIdentity(cfg, env, s, e);
      if at.Some? {
        IdentityStays(cfg, env, at.value);
        StaysTrans(s, at.value, EvaluateIdentity(cfg, env, at.value));
      }
    }
  }

  /** Nothing but a position completes a transaction. */
  lemma OnlyPositionsComplete(cfg: Config, env: Env, s: Eng, e: Event)
    requires Going(s) && !e.SeePosition?
    ensures Going(Step(cfg, env, s, e).eng)
  {
    hide OnScale, EvaluateIdentity, AtIdentity;
    if e.SeeScale? {
      ScaleKeepsGoing(cfg, env, s, e.a);
    } else if e != Reset {
      StepAtIdentity(cfg, env, s, e);
      PreparingStays(cfg, env, s, e);
      var at := AtIdentity(cfg, env, s, e);
      if at.Some? { IdentityStays(cfg, env, at.value); }
    }
  }

  lemma ScaleKeepsGoing(cfg: Config, env: Env, s: Eng, a: Audited)
    requires Going(s)
    ensures Going(OnScale(cfg, env, s, a).eng)
  {
    hide Approaching, TryReady, Weigh;
    HeardCases(cfg, env, s, a);
    if a.rawRef.Present() && a.reading.Sound() && Live(s) {
      var f := Heard(s, a);
      ApproachingStays(cfg, f);
      DeckHelpersStay(Approaching(cfg, f));
      WeighingStays(cfg, env, EnterWeighing(cfg, f), a);
    } else {
      DeafKeepsGoing(cfg, env, s, a);
    }
  }

  lemma DeafKeepsGoing(cfg: Config, env: Env, s: Eng, a: Audited)
    requires Going(s) && !(a.rawRef.Present() && a.reading.Sound() && Live(s))
    ensures Going(OnScale(cfg, env, s, a).eng)
  {
    hide EnterWeighing, WeighAndCommit;
  }

  /** A completed transaction stays what it is, is locked out, or is dropped. */
  lemma CompletedStep(cfg: Config, env: Env, s: Eng, e: Event)
    requires s.tx.Some? && s.tx.value.state == Completed && Sounded(s)
    ensures var r := Step(cfg, env, s, e).eng; Sounded(r) && (r.tx.Some? ==> r.tx.value.state == Completed || r.tx.value.state == FaultLockout)
  {
    hide OnPosition, OnScale, EvaluateIdentity, AtIdentity;
    if e.SeePosition? {
      CompletedPosition(cfg, env, s, e.p);
    } else if e.SeeScale? {
      CompletedScale(cfg, env, s, e.a);
    } else if e != Reset {
      StepAtIdentity(cfg, env, s, e);
      PreparingStays(cfg, env, s, e);
      PreparingKeepsState(cfg, env, s, e);
      var at := AtIdentity(cfg, env, s, e);
      if at.Some? { EndedIdentity(cfg, env, at.value); }
    }
  }

  lemma CompletedPosition(cfg: Config, env: Env, s: Eng, p: Position)
    requires s.tx.Some? && s.tx.value.state == Completed && Sounded(s)
    ensures var r := OnPosition(cfg, env, s, p); r.tx.Some? && Sounded(r) && r.tx.value.state == Completed
  {
  }

  lemma CompletedScale(cfg: Config, env: Env, s: Eng, a: Audited)
    requires s.tx.Some? && s.tx.value.state == Completed && Sounded(s)
    ensures var r := OnScale(cfg, env, s, a).eng;
            r.tx.Some? && Sounded(r) && (r.tx.value.state == Completed || r.tx.value.state == FaultLockout)
  {
    hide EnterWeighing, WeighAndCommit;
  }

  lemma PreparingKeepsState(cfg: Config, env: Env, s: Eng, e: Event)
    requires s.tx.Some? && s.tx.value.state == Completed
    ensures var at := AtIdentity(cfg, env, s, e); at.Some? ==> at.value.tx.value.state == Completed
  {
    hide EvaluatePosition, UpdateMode, TryReady;
    match e
    case SetFault(f) => RefaultedKeepsState(s, s.faults[f.device := f]);
    case ClearFault(d) => RefaultedKeepsState(s, s.faults - {d});
    case Grant(o) =>
      var dated := if o.authorizedAt == 0 then o.(authorizedAt := env.now) else o;
      ModeKeepsState(Set(s, s.tx.value.(overrides := s.tx.value.overrides + [dated])));
      PositionShape(Granted(env, s, o));
      EndedIsNotReadied(EvaluatePosition(Granted(env, s, o)));
    case _ =>
  }

  lemma RefaultedKeepsState(s: Eng, faults: map<Device, Fault>)
    requires s.tx.Some?
    ensures var s1 := Refaulted(s, faults);
            s1.tx.value.state == s.tx.value.state && EvaluatePosition(s1).tx.value.state == s.tx.value.state
  {
    hide EvaluatePosition, UpdateMode;
    ModeKeepsState(SyncFaults(s.(faults := faults)));
    PositionShape(Refaulted(s, faults));
  }

  lemma ModeKeepsState(s: Eng)
    requires s.tx.Some?
    ensures UpdateMode(s).tx.value.state == s.tx.value.state
  {
  }

  lemma EndedIsNotReadied(s: Eng)
    requires s.tx.Some? && s.tx.value.state == Completed
    ensures TryReady(s) == s
  {
  }

  lemma EndedIdentity(cfg: Config, env: Env, s: Eng)
    requires s.tx.Some? && s.tx.value.state == Completed
    ensures EvaluateIdentity(cfg, env, s) == s
  {
  }

  lemma IdleIsSounded(cfg: Config, env: Env, s: Eng, e: Event)
    requires s.tx.None?
    ensures var r := Step(cfg, env, s, e).eng; r.tx.Some? ==> !Exited(r.tx.value.state)
  {
    hide OnPosition;
    if e.SeePosition? { FreshIsNotLeaving(cfg, env, s, e.p); } else { IdleStaysIdle(cfg, env, s, e); }
  }

  lemma StepSounded(cfg: Config, env: Env, s: Eng, e: Event)
    requires Sounded(s)
    ensures Sounded(Step(cfg, env, s, e).eng)
  {
    hide Step, ExitClear;
    if s.tx.None? {
      IdleIsSounded(cfg, env, s, e);
    } else if s.tx.value.state == Completed {
      CompletedStep(cfg, env, s, e);
    } else {
      CompletesExactly(cfg, env, s, e);
    }
  }

  lemma {:induction false} EverySounded(cfg: Config, script: seq<Timed>)
    ensures Sounded(Run(cfg, NEW_ENGINE, script))
  {
    hide Step;
    if script != [] {
      var init, last := script[..|script| - 1], script[|script| - 1];
      EverySounded(cfg, init);
      StepSounded(cfg, last.env, Run(cfg, NEW_ENGINE, init), last.event);
    }
  }

  // ---------- over every run ----------

  /** At event i the truck, authorised to leave, is seen at the exit; its transaction has lasted since. */
  predicate SeenLeaving(cfg: Config, script: seq<Timed>, i: nat)
    requires i < |script|
  {
    var s := Run(cfg, NEW_ENGINE, script[..i]);
    && s.tx.Some? && s.tx.value.state == ExitAuthorized
    && script[i].event.SeePosition? && script[i].event.p.exitPresent
    && forall k :: i <= k <= |script| ==> Run(cfg, NEW_ENGINE, script[..k]).tx.Some?
  }

  /** At event j the truck is gone from the exit, which is clear, and its transaction has lasted since. */
  predicate SeenGone(cfg: Config, script: seq<Timed>, j: nat)
    requires j < |script|
  {
    var s := Run(cfg, NEW_ENGINE, script[..j]);
    && s.tx.Some? && s.tx.value.state == Exiting
    && script[j].event.SeePosition? && !script[j].event.p.exitPresent && ExitClear(s.tx.value, script[j].event.p)
    && forall k :: j <= k <= |script| ==> Run(cfg, NEW_ENGINE, script[..k]).tx.Some?
  }

  lemma LastsOn(cfg: Config, script: seq<Timed>, last: Timed, i: nat)
    requires i < |script| && Run(cfg, NEW_ENGINE, script + [last]).tx.Some?
    ensures SeenLeaving(cfg, script, i) ==> SeenLeaving(cfg, script + [last], i)
    ensures SeenGone(cfg, script, i) ==> SeenGone(cfg, script + [last], i)
  {
    hide Run, ExitClear;
    var more := script + [last];
    assert more[..i] == script[..i];
    forall k | i <= k <= |more| ensures more[..k] == (if k <= |script| then script[..k] else more) {}
  }

  lemma LastingNow(cfg: Config, script: seq<Timed>)
    requires script != [] && Run(cfg, NEW_ENGINE, script[..|script| - 1]).tx.Some? && Run(cfg, NEW_ENGINE, script).tx.Some?
    ensures forall k :: |script| - 1 <= k <= |script| ==> Run(cfg, NEW_ENGINE, script[..k]).tx.Some?
  {
    hide Run;
    assert script[..|script|] == script;
  }

  lemma {:induction false} ExitingWasSeen(cfg: Config, script: seq<Timed>)
    requires var s := Run(cfg, NEW_ENGINE, script); s.tx.Some? && s.tx.value.state == Exiting
    ensures exists i :: 0 <= i < |script| && SeenLeaving(cfg, script, i)
  {
    hide Step, ExitClear;
    var n := |script| - 1;
    var init, last := script[..n], script[n];
    var s := Run(cfg, NEW_ENGINE, init);
    EverySounded(cfg, init);
    assert init + [last] == script;
    if s.tx.None? {
      IdleIsSounded(cfg, last.env, s, last.event);
    } else if s.tx.value.state == Completed {
      CompletedStep(cfg, last.env, s, last.event);
    } else {
      CompletesExactly(cfg, last.env, s, last.event);
      if s.tx.value.state == Exiting {
        ExitingWasSeen(cfg, init);
        var i :| 0 <= i < n && SeenLeaving(cfg, init, i);
        LastsOn(cfg, init, last, i);
      } else {
        LastingNow(cfg, script);
        assert SeenLeaving(cfg, script, n);
      }
    }
  }

  /** Every completed transaction of any run left by the exit: it was authorised to leave and seen there, and later it was gone from
      there with the safety input clear or a confirmed override in its place. */
  lemma {:induction false} CompletedHasLeft(cfg: Config, script: seq<Timed>)
    requires var s := Run(cfg, NEW_ENGINE, script); s.tx.Some? && s.tx.value.state == Completed
    ensures exists i, j :: 0 <= i < j < |script| && SeenLeaving(cfg, script, i) && SeenGone(cfg, script, j)
  {
    hide Step, ExitClear;
    var n := |script| - 1;
    var init, last := script[..n], script[n];
    var s := Run(cfg, NEW_ENGINE, init);
    EverySounded(cfg, init);
    assert init + [last] == script;
    if s.tx.None? {
      IdleIsSounded(cfg, last.env, s, last.event);
    } else if s.tx.value.state == Completed {
      CompletedHasLeft(cfg, init);
      var i, j :| 0 <= i < j < n && SeenLeaving(cfg, init, i) && SeenGone(cfg, init, j);
      LastsOn(cfg, init, last, i);
      LastsOn(cfg, init, last, j);
    } else {
      CompletesExactly(cfg, last.env, s, last.event);
      ExitingWasSeen(cfg, init);
      var i :| 0 <= i < n && SeenLeaving(cfg, init, i);
      LastsOn(cfg, init, last, i);
      LastingNow(cfg, script);
      assert SeenGone(cfg, script, n);
    }
  }
}
