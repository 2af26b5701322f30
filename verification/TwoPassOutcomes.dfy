/**
 What the operator is told about the business cycle is what the store holds.
 */
module TwoPassOutcomes {
  import opened Domain
  import opened Pairing
  import opened Ledger
  import opened LedgerProofs
  import opened Coordination
  import opened Interleaving
  import opened EngineSpec
  import opened EngineProofs
  import opened TwoPass
  import opened TwoPassProofs

  /** A return remembered as a success is a completed cycle in the store, with its ticket. */
  ghost predicate Durable(db: DB, o: Outcome) {
    o.direction == BToA && !o.failed && o.ticket.Some? && o.cycle.Some? ==>
      && o.cycle.value.id in db.cycles
      && db.cycles[o.cycle.value.id].status == Complete && db.cycles[o.cycle.value.id].cycle == o.cycle.value
      && o.ticket.value.id in db.tickets && Same(db.tickets[o.ticket.value.id].ticket, o.ticket.value)
      && o.ticket.value.cycleID == o.cycle.value.id
  }

  ghost predicate OutcomesOK(db: DB, outcomes: map<string, Outcome>) {
    forall id {:trigger outcomes[id]} :: id in outcomes ==> Durable(db, outcomes[id])
  }

  lemma DurableStays(a: DB, b: DB, outcomes: map<string, Outcome>)
    requires OutcomesOK(a, outcomes) && Preserves(a, b)
    ensures OutcomesOK(b, outcomes)
  {
    forall id | id in outcomes ensures Durable(b, outcomes[id]) {
      assert Durable(a, outcomes[id]);
    }
  }

  lemma ReturnIsRemembered(set_: Settings, o: Outside, shop: Shop, pass: WeighPass)
    requires ShopOK(set_.u, shop) && pass.id != ""
    ensures var d := DrawFor(o);
            var plan := BeginSecond(set_.u, set_.policy, shop.db, pass, d, o.diskFind);
            var later := Interleaving.Run(set_.u, set_.policy, shop, o.between);
            var out := EndSecond(later.db, plan, d, o.disk);
            Durable(out.db, Outcome(BToA, out.cycle, out.ticket, out.err.Some?))
  {
    hide Consistent, BeginSecond, EndSecond, Interleaving.Run, PlanOK, Same;
    var d := DrawFor(o);
    var plan := BeginSecond(set_.u, set_.policy, shop.db, pass, d, o.diskFind);
    BeginPlansSoundly(set_.u, set_.policy, shop.db, pass, d, o.diskFind);
    RunPreserves(set_.u, set_.policy, shop, o.between);
    var later := Interleaving.Run(set_.u, set_.policy, shop, o.between);
    PlanOutlivesRun(set_.u, set_.policy, shop, o.between, plan);
    EndKeeps(set_.u, later.db, plan, d, o.disk);
    var out := EndSecond(later.db, plan, d, o.disk);
    if out.err.None? {
      EndReturnsWhatIsStored(later.db, plan, d, o.disk);
      TicketNamesCycle(later.db, plan, d, o.disk);
    }
  }

  lemma TicketNamesCycle(db: DB, plan: Plan, d: Draw, disk: bool)
    requires PlanOK(db, plan) && EndSecond(db, plan, d, disk).err.None? && plan.Finish?
    ensures var out := EndSecond(db, plan, d, disk);
            out.ticket.Some? && out.ticket.value.id == plan.ticket.id && out.ticket.value.cycleID == plan.paired.id
  {
    hide CompleteCycle;
  }

  lemma CommitRemembers(set_: Settings, o: Outside, b: Bridge, shop: Shop, t: PassTicket)
    requires ShopOK(set_.u, shop) && t.id != "" && OutcomesOK(shop.db, b.outcomes)
    ensures var c := Commit(set_, o, b, shop, t); OutcomesOK(c.shop.db, c.bridge.outcomes)
  {
    hide Consistent, BeginSecond, EndSecond, Interleaving.Run, RecordFirstPass, Durable;
    CommitIsDurable(set_, o, b, shop, t);
    var c := Commit(set_, o, b, shop, t);
    DurableStays(shop.db, c.shop.db, b.outcomes);
    if b.direction == BToA {
      ReturnIsRemembered(set_, o, shop, PassFrom(t, b.direction, EvidenceOf(b, t.txID)));
    } else if b.direction == AToB {
      FirstIsRemembered(c.shop.db, c.bridge.outcomes[t.txID]);
    }
  }

  lemma FirstIsRemembered(db: DB, o: Outcome)
    requires o.direction == AToB
    ensures Durable(db, o)
  {
  }

  ghost predicate Remembers(w: World) {
    OutcomesOK(w.shop.db, w.bridge.outcomes)
  }

  lemma FeedRemembers(set_: Settings, o: Outside, w: World, e: Event)
    requires Inv(set_.cfg, w.eng) && ShopOK(set_.u, w.shop) && Remembers(w)
    ensures Remembers(Feed(set_, o, w, e))
  {
    hide Inv, Step, Commit, OutcomesOK;
    var env := EnvFor(set_, o, w);
    StepKeeps(set_.cfg, env, w.eng, e);
    var out := Step(set_.cfg, env, w.eng, e);
    if out.offered.Some? { CommitRemembers(set_, o, w.bridge, w.shop, out.offered.value); }
  }

  lemma ResetRemembers(w: World)
    requires Remembers(w)
    ensures Remembers(DoReset(w))
  {
    hide Durable;
  }

  lemma BindRemembers(set_: Settings, disk: bool, w: World)
    requires Remembers(w)
    ensures Remembers(TryBind(set_, disk, w))
  {
    hide OutcomesOK, FindCalled;
  }

  lemma SensorsRemember(set_: Settings, o: Outside, w: World, p: Position)
    requires WorldInv(set_, w) && Remembers(w)
    ensures Remembers(Act(set_, o, w, Sensors(p)))
  {
    hide OutcomesOK, Feed, TryBind, Inv, ShopOK, ReleaseIsDurable, DoReset;
    var w0 := Cleared(w, p);
    ResetRemembers(w);
    ResetKeeps(set_, w);
    var w1 := Directed(w0, p);
    var e := SeePosition(if w1.direction == BToA then SwapPosition(p) else p);
    FeedRemembers(set_, o, w1, e);
    BindRemembers(set_, o.diskFind, Feed(set_, o, w1, e));
  }

  lemma ActRemembers(set_: Settings, o: Outside, w: World, e: WorldEvent)
    requires WorldInv(set_, w) && Remembers(w)
    ensures Remembers(Act(set_, o, w, e))
  {
    hide OutcomesOK, Feed, TryBind, Inv, ShopOK, ReleaseIsDurable, DoReset, Interleaving.Do;
    match e
    case Sensors(p) => SensorsRemember(set_, o, w, p);
    case Device(d) =>
      FeedRemembers(set_, o, w, d);
      BindRemembers(set_, o.diskFind, Feed(set_, o, w, d));
    case CameraShot(_) =>
    case OperatorReset => ResetRemembers(w);
    case Elsewhere(a) =>
      ActionPreserves(set_, w.shop, a);
      DurableStays(w.shop.db, Interleaving.Do(set_.u, set_.policy, w.shop, a).db, w.bridge.outcomes);
  }

  lemma ActionPreserves(set_: Settings, s: Shop, a: Action)
    requires ShopOK(set_.u, s)
    ensures Preserves(s.db, Interleaving.Do(set_.u, set_.policy, s, a).db)
  {
    hide Interleaving.Do, Preserves;
    RunPreserves(set_.u, set_.policy, s, [a]);
    assert [a][..|[a]| - 1] == [] && Interleaving.Run(set_.u, set_.policy, s, []) == s;
    assert Interleaving.Run(set_.u, set_.policy, s, [a]) == Interleaving.Do(set_.u, set_.policy, s, a);
  }

  lemma {:induction false} EveryWorldRemembers(set_: Settings, w: World, script: seq<Cue>)
    requires WorldInv(set_, w) && Remembers(w)
    ensures Remembers(Play(set_, w, script))
  {
    hide WorldInv, Remembers, Act;
    if script != [] {
      var init, last := script[..|script| - 1], script[|script| - 1];
      EveryWorldRemembers(set_, w, init);
      EveryWorldInv(set_, w, init);
      ActRemembers(set_, last.o, Play(set_, w, init), last.e);
    }
  }

  /** In every reachable world, when the snapshot calls the business complete the cycle and the ticket it names are in the store,
      complete, and the weights it shows are the ones stored. */
  lemma BusinessCompleteIsDurable(set_: Settings, script: seq<Cue>)
    requires set_.cfg.confirmations > 0
    ensures var w := Play(set_, NEW_WORLD, script);
            var v := Snapshot(w);
            v.Some? && v.value.businessComplete ==>
              && v.value.cycleID in w.shop.db.cycles && v.value.ticketID in w.shop.db.tickets
              && var row, t := w.shop.db.cycles[v.value.cycleID], w.shop.db.tickets[v.value.ticketID].ticket;
                 && row.status == Complete && t.cycleID == v.value.cycleID
                 && (v.value.gross, v.value.tare, v.value.net) == (row.cycle.gross, row.cycle.tare, row.cycle.net)
  {
    hide WorldInv, Play;
    var w := Play(set_, NEW_WORLD, script);
    NewWorldInv(set_);
    EveryWorldRemembers(set_, NEW_WORLD, script);
    CompleteComesFromOutcome(w);
  }

  lemma CompleteComesFromOutcome(w: World)
    ensures var v := Snapshot(w);
            v.Some? && v.value.businessComplete ==>
              && w.eng.tx.Some? && w.eng.tx.value.id in w.bridge.outcomes
              && var o := w.bridge.outcomes[w.eng.tx.value.id];
                 && o.direction == BToA && !o.failed && o.ticket.Some? && o.cycle.Some?
                 && v.value.cycleID == o.cycle.value.id && v.value.ticketID == o.ticket.value.id
                 && (v.value.gross, v.value.tare, v.value.net) == (o.cycle.value.gross, o.cycle.value.tare, o.cycle.value.net)
  {
  }
}
