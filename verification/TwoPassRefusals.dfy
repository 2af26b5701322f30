/**
 A completion the store refuses: the outcome remembered for it still says COMPLETE, and so does the snapshot.
 */
module TwoPassRefusals {
  import opened Domain
  import opened Pairing
  import opened Ledger
  import opened LedgerProofs
  import opened Coordination
  import opened Interleaving
  import opened EngineSpec
  import opened EngineProofs
  import opened EngineTheorems
  import opened TwoPass
  import opened TwoPassProofs

  /** Remembered as failed, yet with a completed cycle. */
  predicate SaysComplete(o: Outcome) {
    o.failed && o.cycle.Some? && o.cycle.value.status == Complete
  }

  /** The return this ticket makes is planned to complete its cycle, and the store refuses. */
  ghost predicate Refused(set_: Settings, o: Outside, b: Bridge, shop: Shop, t: PassTicket) {
    && b.direction == BToA
    && var plan := BeginSecond(set_.u, set_.policy, shop.db, PassFrom(t, BToA, EvidenceOf(b, t.txID)), DrawFor(o), o.diskFind);
       && plan.Finish?
       && !CompleteCycle(Interleaving.Run(set_.u, set_.policy, shop, o.between).db, plan.paired, plan.ticket, o.now, o.disk).ok
  }

  /** Why the store may refuse, whatever other callers did since the search. */
  lemma RefusedExactly(set_: Settings, o: Outside, b: Bridge, shop: Shop, t: PassTicket)
    requires ShopOK(set_.u, shop) && t.id != "" && b.direction == BToA
    ensures var plan := BeginSecond(set_.u, set_.policy, shop.db, PassFrom(t, BToA, EvidenceOf(b, t.txID)), DrawFor(o), o.diskFind);
            var db := Interleaving.Run(set_.u, set_.policy, shop, o.between).db;
            Refused(set_, o, b, shop, t) <==>
              && plan.Finish?
              && (|| !o.disk
                  || (plan.paired.id in db.cycles && db.cycles[plan.paired.id].status != Called)
                  || "final-" + o.suffix in db.tickets || t.id in db.passes)
  {
    hide CompleteCycle, BeginSecond, Interleaving.Run, Consistent, PlanOK;
    var d, pass := DrawFor(o), PassFrom(t, BToA, EvidenceOf(b, t.txID));
    var plan := BeginSecond(set_.u, set_.policy, shop.db, pass, d, o.diskFind);
    BeginPlansSoundly(set_.u, set_.policy, shop.db, pass, d, o.diskFind);
    RunPreserves(set_.u, set_.policy, shop, o.between);
    PlanOutlivesRun(set_.u, set_.policy, shop, o.between, plan);
    var db := Interleaving.Run(set_.u, set_.policy, shop, o.between).db;
    if plan.Finish? {
      FinishIsKnown(db, plan);
      CompletionRefusedExactly(set_.u, db, plan, d, o.disk);
    }
  }

  lemma FinishIsKnown(db: DB, plan: Plan)
    requires PlanOK(db, plan) && plan.Finish?
    ensures plan.paired.id in db.cycles && plan.paired.second.Some?
  {
  }

  /** What a return leaves in the outcome: COMPLETE with a failure exactly when the store refused the completion, COMPLETE
      without one only together with a ticket. */
  lemma ReturnRemembersExactly(set_: Settings, o: Outside, shop: Shop, pass: WeighPass)
    requires ShopOK(set_.u, shop) && pass.id != ""
    ensures var d := DrawFor(o);
            var plan := BeginSecond(set_.u, set_.policy, shop.db, pass, d, o.diskFind);
            var later := Interleaving.Run(set_.u, set_.policy, shop, o.between);
            var out := EndSecond(later.db, plan, d, o.disk);
            && (SaysComplete(Outcome(BToA, out.cycle, out.ticket, out.err.Some?))
                <==> plan.Finish? && !CompleteCycle(later.db, plan.paired, plan.ticket, d.now, o.disk).ok)
            && (if out.err.None? then out.ticket.Some? && out.ticket.value.id != "" && out.cycle.Some? else out.ticket.None?)
  {
    hide CompleteCycle, BeginSecond, Interleaving.Run, Consistent, MarkCycleStatus;
    var d := DrawFor(o);
    var plan := BeginSecond(set_.u, set_.policy, shop.db, pass, d, o.diskFind);
    BeginPlansSoundly(set_.u, set_.policy, shop.db, pass, d, o.diskFind);
    RunPreserves(set_.u, set_.policy, shop, o.between);
    PlanOutlivesRun(set_.u, set_.policy, shop, o.between, plan);
  }

  /** At the commit: the outcome remembered says COMPLETE and failed exactly when the store refused the completion. */
  lemma CommitRemembersExactly(set_: Settings, o: Outside, b: Bridge, shop: Shop, t: PassTicket)
    requires ShopOK(set_.u, shop) && t.id != "" && b.direction != NoDirection
    ensures var c := Commit(set_, o, b, shop, t);
            && c.bridge.outcomes.Keys == b.outcomes.Keys + {t.txID}
            && (forall id :: id in b.outcomes && id != t.txID ==> c.bridge.outcomes[id] == b.outcomes[id])
            && (SaysComplete(c.bridge.outcomes[t.txID]) <==> Refused(set_, o, b, shop, t))
            && (SaysComplete(c.bridge.outcomes[t.txID]) ==> !c.ok)
            && (!SaysComplete(c.bridge.outcomes[t.txID]) ==> Harmless(c.bridge.outcomes[t.txID]))
  {
    hide CompleteCycle, BeginSecond, EndSecond, Interleaving.Run, Consistent, RecordFirstPass;
    if b.direction == BToA {
      ReturnRemembersExactly(set_, o, shop, PassFrom(t, BToA, EvidenceOf(b, t.txID)));
    } else {
      FirstIsQueued(set_, o, shop.db, PassFrom(t, AToB, EvidenceOf(b, t.txID)));
    }
  }

  lemma FirstIsQueued(set_: Settings, o: Outside, db: DB, pass: WeighPass)
    ensures var out := RecordFirstPass(set_.u, db, pass, DrawFor(o), o.disk); out.cycle.Some? ==> out.cycle.value.status == Queued
  {
  }

  /** An outcome that says COMPLETE only as the success of a return with its ticket, and has none after a failure. */
  predicate Harmless(o: Outcome) {
    && (o.cycle.Some? && o.cycle.value.status == Complete ==>
          !o.failed && o.direction == BToA && o.ticket.Some? && o.ticket.value.id != "")
    && (o.failed ==> o.ticket.None?)
  }

  // ---------- over every run ----------

  /** The ticket this action offers, if any. */
  ghost function OfferOf(set_: Settings, w: World, cue: Cue): Option<PassTicket> {
    if cue.e.Device? && cue.e.e.SeeScale? then Step(set_.cfg, EnvFor(set_, cue.o, w), w.eng, cue.e.e).offered else None
  }

  ghost predicate Refuses(set_: Settings, w: World, cue: Cue) {
    var t := OfferOf(set_, w, cue);
    t.Some? && Refused(set_, cue.o, w.bridge, w.shop, t.value)
  }

  /** No refusal so far: whatever says COMPLETE is complete. */
  predicate Clean(w: World) {
    && (w.bound.Some? ==> w.bound.value.status == Called)
    && forall id {:trigger w.bridge.outcomes[id]} :: id in w.bridge.outcomes ==> Harmless(w.bridge.outcomes[id])
  }

  /** After a refusal: locked out, with the refused outcome. */
  predicate Tainted(w: World) {
    && Locked(w.eng) && TxID(w.eng) in w.bridge.outcomes && SaysComplete(w.bridge.outcomes[TxID(w.eng)])
  }

  lemma FeedTaints(set_: Settings, o: Outside, w: World, e: Event)
    requires Inv(set_.cfg, w.eng) && ShopOK(set_.u, w.shop) && Clean(w) && e != Reset
    requires w.eng.tx.Some? && w.eng.tx.value.accepted.Some? ==> w.direction != NoDirection
    requires w.direction == w.bridge.direction
    ensures var w', t := Feed(set_, o, w, e), Step(set_.cfg, EnvFor(set_, o, w), w.eng, e).offered;
            if t.Some? && Refused(set_, o, w.bridge, w.shop, t.value) then Tainted(w') else Clean(w')
  {
    hide Inv, Step, Commit, Refused, ShopOK, SaysComplete, Harmless;
    var env := EnvFor(set_, o, w);
    StepKeeps(set_.cfg, env, w.eng, e);
    var out := Step(set_.cfg, env, w.eng, e);
    if out.offered.Some? {
      var t := out.offered.value;
      if w.bridge.direction == NoDirection {
        UndirectedRemembersNothing(set_, o, w.bridge, w.shop, t);
      } else {
        CommitRemembersExactly(set_, o, w.bridge, w.shop, t);
        if SaysComplete(Commit(set_, o, w.bridge, w.shop, t).bridge.outcomes[t.txID]) {
          RefusedOfferLocks(set_.cfg, env, w.eng, e);
        }
      }
    }
  }

  lemma UndirectedRemembersNothing(set_: Settings, o: Outside, b: Bridge, shop: Shop, t: PassTicket)
    requires b.direction == NoDirection
    ensures Commit(set_, o, b, shop, t).bridge == b && !Refused(set_, o, b, shop, t)
  {
  }

  /** A ticket the store does not take locks the transaction out. */
  lemma RefusedOfferLocks(cfg: Config, env: Env, s: Eng, e: Event)
    requires Inv(cfg, s) && Step(cfg, env, s, e).offered.Some?
    requires env.sink.Store? && !env.sink.commit(Step(cfg, env, s, e).offered.value)
    ensures Locked(Step(cfg, env, s, e).eng) && TxID(Step(cfg, env, s, e).eng) == Step(cfg, env, s, e).offered.value.txID
  {
    hide OnScale, Inv, Story, Counting;
    OnlyScaleOffers(cfg, env, s, e);
    ScaleRefusalLocks(cfg, env, s, e.a);
  }

  lemma ScaleRefusalLocks(cfg: Config, env: Env, s: Eng, a: Audited)
    requires Inv(cfg, s) && OnScale(cfg, env, s, a).offered.Some?
    requires env.sink.Store? && !env.sink.commit(OnScale(cfg, env, s, a).offered.value)
    ensures Locked(OnScale(cfg, env, s, a).eng) && TxID(OnScale(cfg, env, s, a).eng) == OnScale(cfg, env, s, a).offered.value.txID
  {
    hide OnScale, Inv, Weigh;
    var w := OnScaleCases(cfg, env, s, a);
  }

  lemma BindStaysClean(set_: Settings, disk: bool, w: World)
    requires ShopOK(set_.u, w.shop)
    ensures Clean(w) ==> Clean(TryBind(set_, disk, w))
    ensures Tainted(w) ==> Tainted(TryBind(set_, disk, w))
  {
    hide Harmless, SaysComplete, Consistent, FindCalled, CalledMatches;
    if w.eng.tx.Some? { FoundIsCalled(set_.u, w.shop.db, w.eng.tx.value.plate.plate, w.eng.tx.value.tag.tag); }
  }

  lemma ResetStaysClean(w: World)
    requires Clean(w)
    ensures Clean(DoReset(w))
  {
    hide Harmless;
  }

  lemma SensorsStayClean(set_: Settings, o: Outside, w: World, p: Position)
    requires WorldInv(set_, w) && Clean(w)
    ensures Clean(Act(set_, o, w, Sensors(p)))
  {
    hide Clean, Feed, TryBind, Inv, ShopOK, ReleaseIsDurable, DoReset, Directed;
    var w0 := Cleared(w, p);
    ResetKeeps(set_, w);
    ResetStaysClean(w);
    var w1 := Directed(w0, p);
    DirectedStaysClean(w0, p);
    SensorsKeep(set_, o, w0, p);
    var e := SeePosition(if w1.direction == BToA then SwapPosition(p) else p);
    PositionFeedsClean(set_, o, w1, e.p);
    BindStaysClean(set_, o.diskFind, Feed(set_, o, w1, e));
  }

  lemma DirectedStaysClean(w: World, p: Position)
    requires Clean(w)
    ensures Clean(Directed(w, p)) && Directed(w, p).eng == w.eng && Directed(w, p).shop == w.shop
  {
    hide Harmless;
  }

  lemma PositionFeedsClean(set_: Settings, o: Outside, w: World, p: Position)
    requires Clean(w)
    ensures Clean(Feed(set_, o, w, SeePosition(p)))
  {
    hide OnPosition, Harmless;
  }

  /** Every action of a clean world either is a refusal, and taints it, or keeps it clean. */
  lemma ActTaintsExactly(set_: Settings, w: World, cue: Cue)
    requires WorldInv(set_, w) && Clean(w)
    ensures if Refuses(set_, w, cue) then Tainted(Act(set_, cue.o, w, cue.e)) else Clean(Act(set_, cue.o, w, cue.e))
  {
    hide Clean, Tainted, Feed, TryBind, Inv, ShopOK, ReleaseIsDurable, DoReset, Refused, Interleaving.Do;
    match cue.e
    case Sensors(p) => SensorsStayClean(set_, cue.o, w, p);
    case Device(d) =>
      if !d.SeePosition? && d != Reset {
        DeviceTaints(set_, w, cue.o, d);
      }
    case CameraShot(_) => SideEffectsStayClean(set_, w, cue);
    case OperatorReset => ResetStaysClean(w);
    case Elsewhere(_) => SideEffectsStayClean(set_, w, cue);
  }

  lemma DeviceTaints(set_: Settings, w: World, o: Outside, d: Event)
    requires WorldInv(set_, w) && Clean(w) && !d.SeePosition? && d != Reset
    ensures if Refuses(set_, w, Cue(o, Device(d))) then Tainted(Act(set_, o, w, Device(d))) else Clean(Act(set_, o, w, Device(d)))
  {
    hide Clean, Tainted, Feed, TryBind, Inv, ReleaseIsDurable, Refused, Step;
    FeedTaints(set_, o, w, d);
    FeedKeeps(set_, o, w, d);
    BindStaysClean(set_, o.diskFind, Feed(set_, o, w, d));
    OnlyScales(set_.cfg, EnvFor(set_, o, w), w.eng, d);
  }

  lemma OnlyScales(cfg: Config, env: Env, s: Eng, e: Event)
    ensures Step(cfg, env, s, e).offered.Some? ==> e.SeeScale?
  {
  }

  lemma SideEffectsStayClean(set_: Settings, w: World, cue: Cue)
    requires Clean(w) && (cue.e.CameraShot? || cue.e.Elsewhere?)
    ensures Clean(Act(set_, cue.o, w, cue.e))
  {
    hide Harmless, Interleaving.Do;
  }

  lemma SideEffectsStayTainted(set_: Settings, w: World, cue: Cue)
    requires Tainted(w) && (cue.e.CameraShot? || cue.e.Elsewhere? || cue.e.OperatorReset?)
    ensures Tainted(Act(set_, cue.o, w, cue.e))
  {
    hide SaysComplete, Interleaving.Do;
  }

  lemma FeedStaysTainted(set_: Settings, o: Outside, w: World, e: Event)
    requires Inv(set_.cfg, w.eng) && Tainted(w)
    ensures Tainted(Feed(set_, o, w, e)) && Feed(set_, o, w, e).shop == w.shop
  {
    hide Inv, Feed, SaysComplete;
    FeedLocked(set_, o, w, e);
  }

  lemma ActStaysTainted(set_: Settings, w: World, cue: Cue)
    requires WorldInv(set_, w) && Tainted(w)
    ensures Tainted(Act(set_, cue.o, w, cue.e))
  {
    hide Feed, TryBind, Inv, ShopOK, ReleaseIsDurable, Interleaving.Do, SaysComplete;
    match cue.e
    case Sensors(p) =>
      assert Directed(w, p) == w;
      var e := SeePosition(if w.direction == BToA then SwapPosition(p) else p);
      FeedStaysTainted(set_, cue.o, w, e);
      BindStaysClean(set_, cue.o.diskFind, Feed(set_, cue.o, w, e));
    case Device(d) =>
      FeedStaysTainted(set_, cue.o, w, d);
      BindStaysClean(set_, cue.o.diskFind, Feed(set_, cue.o, w, d));
    case _ => SideEffectsStayTainted(set_, w, cue);
  }

  ghost predicate RefusesAt(set_: Settings, script: seq<Cue>, k: nat)
    requires k < |script|
  {
    Refuses(set_, Play(set_, NEW_WORLD, script[..k]), script[k])
  }

  lemma {:induction false} TaintedExactly(set_: Settings, script: seq<Cue>)
    requires set_.cfg.confirmations > 0
    ensures var w := Play(set_, NEW_WORLD, script);
            if exists k :: 0 <= k < |script| && RefusesAt(set_, script, k) then Tainted(w) else Clean(w)
  {
    hide WorldInv, Act, Refuses, Clean, Tainted;
    NewWorldInv(set_);
    if script == [] {
      NewWorldIsClean();
    } else {
      var n := |script| - 1;
      var init := script[..n];
      TaintedExactly(set_, init);
      EveryWorldInv(set_, NEW_WORLD, init);
      var w := Play(set_, NEW_WORLD, init);
      forall k | 0 <= k < n ensures RefusesAt(set_, script, k) == RefusesAt(set_, init, k) {
        assert init[..k] == script[..k];
      }
      if exists k :: 0 <= k < n && RefusesAt(set_, init, k) {
        var k :| 0 <= k < n && RefusesAt(set_, init, k);
        assert RefusesAt(set_, script, k);
        ActStaysTainted(set_, w, script[n]);
      } else {
        assert RefusesAt(set_, script, n) == Refuses(set_, w, script[n]);
        ActTaintsExactly(set_, w, script[n]);
      }
    }
  }

  lemma NewWorldIsClean()
    ensures Clean(NEW_WORLD)
  {
  }

  /** The snapshot says COMPLETE of a business it does not call complete. */
  predicate ShowsUnfinishedComplete(w: World) {
    var v := Snapshot(w);
    v.Some? && v.value.cycleStatus == Some(Complete) && !v.value.businessComplete
  }

  lemma CleanShowsNone(w: World)
    requires Clean(w)
    ensures !ShowsUnfinishedComplete(w)
  {
  }

  lemma TaintedShows(w: World)
    requires Tainted(w)
    ensures ShowsUnfinishedComplete(w)
  {
  }

  /** In every reachable world the snapshot shows a COMPLETE cycle without a complete business exactly when some earlier step of
      the run was a completion the store refused. */
  lemma UnfinishedCompleteExactly(set_: Settings, script: seq<Cue>)
    requires set_.cfg.confirmations > 0
    ensures ShowsUnfinishedComplete(Play(set_, NEW_WORLD, script)) <==> exists k :: 0 <= k < |script| && RefusesAt(set_, script, k)
  {
    hide Clean, Tainted, RefusesAt, ShowsUnfinishedComplete, Play;
    TaintedExactly(set_, script);
    var w := Play(set_, NEW_WORLD, script);
    if exists k :: 0 <= k < |script| && RefusesAt(set_, script, k) { TaintedShows(w); } else { CleanShowsNone(w); }
  }
}
