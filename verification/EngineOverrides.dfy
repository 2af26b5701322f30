/**
 Overrides: what a supervisor or an operator may bridge, and what an accepted identity rests on.
 */
module EngineOverrides {
  import opened Domain
  import opened Pairing
  import opened EngineSpec
  import EngineProofs

  /** An override that was rightly given in this transaction: complete, for something else than the scale, by an operator at
      least, and by a supervisor where people could be hurt. */
  predicate RightlyGiven(txID: string, o: Override) {
    && o.txID == txID && ValidOverride(o)
    && (o.authorizedAs == Operator || o.authorizedAs == Supervisor)
    && (o.device == EntryBarrier || o.device == ExitBarrier || o.device == PhysicalSafety ==> o.authorizedAs == Supervisor)
  }

  /** Every override is rightly given, and an active one is never doubled. */
  predicate GrantsOK(txID: string, os: seq<Override>) {
    && (forall i :: 0 <= i < |os| ==> RightlyGiven(txID, os[i]))
    && (forall i, j :: 0 <= i < j < |os| && os[i].device == os[j].device ==> os[i].expiredAt.Some?)
  }

  /** An accepted identity rests on both channels agreeing, or on one channel and confirmed evidence for the other. */
  predicate Justified(t: Tx) {
    t.identity == IdAccepted ==>
      || t.reason == ChannelsMatch
      || (t.reason == TagDegraded && HasOverride(t, Rfid, IdentityConfirmed))
      || (t.reason == PlateDegraded && HasOverride(t, Lpr, IdentityConfirmed))
  }

  predicate OverrideInv(s: Eng) {
    s.tx.Some? ==> GrantsOK(s.tx.value.id, s.tx.value.overrides) && Justified(s.tx.value)
  }

  /** Neither overrides nor identity changed. */
  predicate Untouched(s: Eng, r: Eng) {
    && s.tx.Some? && r.tx.Some?
    && r.tx.value.id == s.tx.value.id && r.tx.value.overrides == s.tx.value.overrides
    && r.tx.value.identity == s.tx.value.identity && r.tx.value.reason == s.tx.value.reason
  }

  lemma UntouchedKeeps(s: Eng, r: Eng)
    requires OverrideInv(s) && Untouched(s, r)
    ensures OverrideInv(r)
  {
    hide GrantsOK;
  }

  lemma HelpersUntouched(cfg: Config, s: Eng)
    requires s.tx.Some?
    ensures Untouched(s, Lock(s)) && Untouched(s, SyncFaults(s)) && Untouched(s, UpdateMode(s))
    ensures Untouched(s, TryAuthorize(cfg, s)) && Untouched(s, EvaluatePosition(s)) && Untouched(s, TryReady(s))
  {
  }

  lemma IdentityJustified(cfg: Config, env: Env, s: Eng)
    requires s.tx.Some? && OverrideInv(s)
    ensures OverrideInv(EvaluateIdentity(cfg, env, s))
  {
    hide GrantsOK, TryAuthorize, VehicleKey;
    EngineProofs.IdentityCases(cfg, env, s);
    var t := s.tx.value;
    HelpersUntouched(cfg, Set(s, t.(identity := IdAccepted, reason := TagDegraded, mode := Degraded)));
    CrossCheckJustified(cfg, env, s);
    TagAloneJustified(cfg, env, s);
  }

  lemma CrossCheckJustified(cfg: Config, env: Env, s: Eng)
    requires s.tx.Some? && OverrideInv(s)
    ensures OverrideInv(CrossCheck(cfg, env, s))
  {
    hide GrantsOK, TryAuthorize, VehicleKey;
    var t := s.tx.value;
    HelpersUntouched(cfg, Set(s, t.(identity := IdAccepted, reason := ChannelsMatch,
                                    state := if t.state == IdentityMismatch then Identifying else t.state)));
  }

  lemma TagAloneJustified(cfg: Config, env: Env, s: Eng)
    requires s.tx.Some? && OverrideInv(s)
    ensures HasOverride(s.tx.value, Lpr, IdentityConfirmed) ==> OverrideInv(TagAlone(cfg, env, s))
  {
    hide GrantsOK, TryAuthorize;
    var t, look := s.tx.value, Resolve(env, s.tx.value.tag.tag);
    if look.Mapped? {
      HelpersUntouched(cfg, Set(s, t.(plate := PlateRead(look.plate, "", Faulty, t.tag.observed),
                                      identity := IdAccepted, reason := PlateDegraded, mode := Degraded)));
    }
  }

  lemma UntouchedTrans(a: Eng, b: Eng, c: Eng)
    requires Untouched(a, b) && Untouched(b, c)
    ensures Untouched(a, c)
  {
  }

  lemma RestateUntouched(s: Eng, st: State)
    requires s.tx.Some?
    ensures Untouched(s, Set(s, s.tx.value.(state := st))) && Untouched(s, s)
  {
  }

  lemma ApproachUntouched(cfg: Config, s: Eng)
    requires s.tx.Some?
    ensures Untouched(s, Approaching(cfg, s))
  {
    hide TryAuthorize;
    HelpersUntouched(cfg, s);
  }

  lemma SettleUntouched(cfg: Config, s: Eng)
    requires s.tx.Some?
    ensures Untouched(s, EngineProofs.Settle(s))
  {
    hide EvaluatePosition, TryReady, Untouched;
    RestateUntouched(s, Positioning);
    var t := s.tx.value;
    var s2 := if t.state == Entering || t.state == EntryAuthorized then Set(s, t.(state := Positioning)) else s;
    HelpersUntouched(cfg, s2);
    HelpersUntouched(cfg, EvaluatePosition(s2));
    UntouchedTrans(s, s2, EvaluatePosition(s2));
    UntouchedTrans(s, EvaluatePosition(s2), TryReady(EvaluatePosition(s2)));
  }

  lemma DeckUntouched(cfg: Config, s: Eng, p: Position)
    requires s.tx.Some?
    ensures Untouched(s, Approaching(cfg, s)) && Untouched(s, OnDeck(s, p))
  {
    hide Approaching, EvaluatePosition, TryReady, Untouched;
    ApproachUntouched(cfg, s);
    RestateUntouched(s, Entering);
    var t := s.tx.value;
    var s1 := if p.frontPresent && t.state == EntryAuthorized then Set(s, t.(state := Entering)) else s;
    SettleUntouched(cfg, s1);
    UntouchedTrans(s, s1, EngineProofs.Settle(s1));
  }

  lemma PositionUntouched(cfg: Config, env: Env, s: Eng, p: Position)
    requires s.tx.Some?
    ensures Untouched(s, OnPosition(cfg, env, s, p))
  {
    hide Approaching, OnDeck;
    var s1 := Set(s, s.tx.value.(pos := p));
    DeckUntouched(cfg, s1, p);
    DeckUntouched(cfg, Approaching(cfg, s1), p);
  }

  lemma StartsClean(cfg: Config, env: Env, s: Eng, p: Position)
    requires s.tx.None?
    ensures OverrideInv(OnPosition(cfg, env, s, p))
  {
    hide Approaching, OnDeck, UpdateMode;
    if p.entryPresent {
      var s0 := Start(env, s, p.observed);
      FreshIsClean(env, s, p.observed);
      var s1 := Set(s0, s0.tx.value.(pos := p));
      DeckUntouched(cfg, s1, p);
      DeckUntouched(cfg, Approaching(cfg, s1), p);
    }
  }

  lemma FreshIsClean(env: Env, s: Eng, observed: Time)
    ensures var t := Start(env, s, observed).tx.value; t.overrides == [] && t.identity == IdPending
  {
  }

  lemma EnteringUntouched(cfg: Config, s: Eng)
    requires s.tx.Some?
    ensures Untouched(s, EnterWeighing(cfg, s))
  {
    hide TryAuthorize, TryReady;
    HelpersUntouched(cfg, s);
    HelpersUntouched(cfg, Approaching(cfg, s));
  }

  lemma CommitUntouched(cfg: Config, env: Env, s: Eng, a: Audited)
    requires s.tx.Some?
    ensures var out := CommitTicket(cfg, env, s, a);
            Untouched(s, out.eng) && (out.offered.Some? ==> out.offered.value.overrides == s.tx.value.overrides)
  {
  }

  lemma WeighingUntouched(cfg: Config, env: Env, s: Eng, a: Audited)
    requires s.tx.Some?
    ensures var out := WeighAndCommit(cfg, env, s, a);
            Untouched(s, out.eng) && (out.offered.Some? ==> out.offered.value.overrides == s.tx.value.overrides)
  {
    hide Weigh, CommitTicket;
    WeighUntouched(cfg, s, a);
    CommitUntouched(cfg, env, Weigh(cfg, s, a), a);
  }

  lemma ReceivedUntouched(s: Eng, a: Audited, faults: map<Device, Fault>)
    requires s.tx.Some?
    ensures var f := Receive(s, a).(faults := faults);
            f.tx.Some? && Untouched(s, s) && Untouched(s, f) && Untouched(s, SyncFaults(f)) && Untouched(s, Lock(SyncFaults(f)))
  {
  }

  lemma ScaleUntouched(cfg: Config, env: Env, s: Eng, a: Audited)
    requires s.tx.Some?
    ensures var out := OnScale(cfg, env, s, a);
            Untouched(s, out.eng) && (out.offered.Some? ==> out.offered.value.overrides == s.tx.value.overrides)
  {
    hide EnterWeighing, WeighAndCommit, Receive, Lock, SyncFaults;
    var r := Receive(s, a);
    ReceivedUntouched(s, a, r.faults[Scale := ScaleFault(a.reading)]);
    ReceivedUntouched(s, a, r.faults - {Scale});
    var f := SyncFaults(r.(faults := r.faults - {Scale}));
    EnteringUntouched(cfg, f);
    WeighingUntouched(cfg, env, EnterWeighing(cfg, f), a);
  }

  lemma WeighUntouched(cfg: Config, s: Eng, a: Audited)
    requires s.tx.Some?
    ensures Untouched(s, Weigh(cfg, s, a))
  {
  }

  lemma AfterFaultJustified(cfg: Config, env: Env, s: Eng, d: Device)
    requires s.tx.Some? && OverrideInv(s)
    ensures OverrideInv(AfterFault(cfg, env, s, d))
  {
    hide EvaluateIdentity, EvaluatePosition, OverrideInv;
    HelpersUntouched(cfg, s);
    UntouchedKeeps(s, EvaluatePosition(s));
    IdentityJustified(cfg, env, s);
    IdentityJustified(cfg, env, EvaluatePosition(s));
  }

  lemma RefaultedJustified(cfg: Config, env: Env, s: Eng, faults: map<Device, Fault>)
    requires s.tx.Some? && OverrideInv(s)
    ensures var s1 := SyncFaults(s.(faults := faults)); OverrideInv(s1) && OverrideInv(Lock(s1)) && OverrideInv(UpdateMode(s1))
  {
    hide UpdateMode, GrantsOK;
    var s1 := SyncFaults(s.(faults := faults));
    UntouchedKeeps(s, s1);
    HelpersUntouched(cfg, s1);
    UntouchedKeeps(s1, Lock(s1));
    UntouchedKeeps(s1, UpdateMode(s1));
  }

  /** What Grantable lets through is rightly given and not a double. */
  lemma GrantIsRight(s: Eng, o: Override)
    requires Grantable(s, o) && GrantsOK(s.tx.value.id, s.tx.value.overrides)
    ensures forall at: Time :: GrantsOK(s.tx.value.id, s.tx.value.overrides + [o.(authorizedAt := at)])
  {
    forall at: Time ensures GrantsOK(s.tx.value.id, s.tx.value.overrides + [o.(authorizedAt := at)]) {
      var os, g := s.tx.value.overrides, o.(authorizedAt := at);
      assert RightlyGiven(s.tx.value.id, g);
      forall i | 0 <= i < |os| && os[i].device == o.device ensures os[i].expiredAt.Some? {
        assert !ActiveOverride(s.tx.value, o.device);
      }
    }
  }

  lemma GrantedStaysJustified(t: Tx, o: Override)
    requires Justified(t)
    ensures Justified(t.(overrides := t.overrides + [o]))
  {
    var t' := t.(overrides := t.overrides + [o]);
    forall d, e | HasOverride(t, d, e) ensures HasOverride(t', d, e) {
      var i :| 0 <= i < |t.overrides| && t.overrides[i].device == d && t.overrides[i].expiredAt.None? && e in t.overrides[i].evidence;
      assert t'.overrides[i] == t.overrides[i];
    }
  }

  lemma GrantJustified(cfg: Config, env: Env, s: Eng, o: Override)
    requires OverrideInv(s)
    ensures OverrideInv(OnGrant(cfg, env, s, o).eng)
  {
    hide Justified, GrantsOK, UpdateMode, EvaluatePosition, TryReady, EvaluateIdentity, Grantable;
    if Grantable(s, o) {
      OnlyWithinTransaction(s, o);
      var dated := if o.authorizedAt == 0 then o.(authorizedAt := env.now) else o;
      GrantIsRight(s, o);
      assert dated == o.(authorizedAt := dated.authorizedAt);
      GrantedStaysJustified(s.tx.value, dated);
      var s0 := Set(s, s.tx.value.(overrides := s.tx.value.overrides + [dated]));
      assert OverrideInv(s0);
      HelpersUntouched(cfg, s0);
      UntouchedKeeps(s0, UpdateMode(s0));
      var s1 := UpdateMode(s0);
      HelpersUntouched(cfg, s1);
      HelpersUntouched(cfg, EvaluatePosition(s1));
      UntouchedTrans(s1, EvaluatePosition(s1), TryReady(EvaluatePosition(s1)));
      UntouchedKeeps(s1, TryReady(EvaluatePosition(s1)));
      IdentityJustified(cfg, env, s1);
      IdentityJustified(cfg, env, TryReady(EvaluatePosition(s1)));
    }
  }

  lemma OnlyWithinTransaction(s: Eng, o: Override)
    requires Grantable(s, o)
    ensures s.tx.Some?
  {
  }

  lemma ObservationJustified(cfg: Config, env: Env, s: Eng, t: Tx)
    requires s.tx.Some? && OverrideInv(s) && t == s.tx.value.(tag := t.tag, plate := t.plate)
    ensures OverrideInv(EvaluateIdentity(cfg, env, Set(s, t)))
  {
    hide GrantsOK, EvaluateIdentity;
    UntouchedKeeps(s, Set(s, t));
    IdentityJustified(cfg, env, Set(s, t));
  }

  lemma StepKeepsOverrides(cfg: Config, env: Env, s: Eng, e: Event)
    requires OverrideInv(s)
    ensures OverrideInv(Step(cfg, env, s, e).eng)
  {
    hide GrantsOK, Justified, OnPosition, OnScale, EvaluateIdentity, UpdateMode, AfterFault, OnGrant;
    match e
    case SeePosition(p) =>
      if s.tx.None? { StartsClean(cfg, env, s, p); } else {
        PositionUntouched(cfg, env, s, p);
        UntouchedKeeps(s, OnPosition(cfg, env, s, p));
      }
    case SeeTag(tag) => if s.tx.Some? { ObservationJustified(cfg, env, s, s.tx.value.(tag := tag)); }
    case SeePlate(plate) => if s.tx.Some? { ObservationJustified(cfg, env, s, s.tx.value.(plate := plate)); }
    case SeeScale(a) =>
      if s.tx.Some? {
        ScaleUntouched(cfg, env, s, a);
        UntouchedKeeps(s, OnScale(cfg, env, s, a).eng);
      } else {
        NoScaleStarts(cfg, env, s, a);
      }
    case SetFault(f) =>
      if s.tx.Some? {
        RefaultedJustified(cfg, env, s, s.faults[f.device := f]);
        AfterFaultJustified(cfg, env, UpdateMode(SyncFaults(s.(faults := s.faults[f.device := f]))), f.device);
      }
    case ClearFault(d) =>
      if s.tx.Some? {
        RefaultedJustified(cfg, env, s, s.faults - {d});
        AfterFaultJustified(cfg, env, UpdateMode(SyncFaults(s.(faults := s.faults - {d}))), d);
      }
    case Grant(o) => GrantJustified(cfg, env, s, o);
    case Reset =>
  }

  lemma NoScaleStarts(cfg: Config, env: Env, s: Eng, a: Audited)
    requires s.tx.None?
    ensures OnScale(cfg, env, s, a).eng.tx.None?
  {
  }

  /** In every reachable state every override on the transaction was rightly given and none is active twice, and an accepted
      identity is justified by agreement or by such an override. */
  lemma {:induction false} EveryOverrideIsRight(cfg: Config, script: seq<Timed>)
    ensures var s := Run(cfg, NEW_ENGINE, script);
            && OverrideInv(s)
            && (s.tx.Some? ==>
                 forall i :: 0 <= i < |s.tx.value.overrides| ==> RightlyGiven(s.tx.value.id, s.tx.value.overrides[i]))
  {
    hide Step, Justified;
    if script != [] {
      var last := script[|script| - 1];
      EveryOverrideIsRight(cfg, script[..|script| - 1]);
      StepKeepsOverrides(cfg, last.env, Run(cfg, NEW_ENGINE, script[..|script| - 1]), last.event);
    }
  }

  /** A ticket carries exactly the overrides of its transaction, so those on it were rightly given too. */
  lemma TicketOverridesAreRight(cfg: Config, env: Env, s: Eng, e: Event)
    requires OverrideInv(s)
    ensures var out := Step(cfg, env, s, e);
            out.offered.Some? ==> s.tx.Some? && GrantsOK(s.tx.value.id, out.offered.value.overrides)
  {
    hide GrantsOK, Justified;
    if e.SeeScale? && s.tx.Some? { ScaleUntouched(cfg, env, s, e.a); }
    if e.SeeScale? && s.tx.None? { NoScaleOffers(cfg, env, s, e.a); }
  }

  lemma NoScaleOffers(cfg: Config, env: Env, s: Eng, a: Audited)
    requires s.tx.None?
    ensures OnScale(cfg, env, s, a).offered.None?
  {
  }
}
