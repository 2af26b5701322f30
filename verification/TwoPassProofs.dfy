/**
 Release needs durable evidence; directions stay together and stay fixed; lockout blanks both directions.
 */
module TwoPassProofs {
  import opened Domain
  import opened Pairing
  import opened Ledger
  import opened LedgerProofs
  import opened Coordination
  import opened Interleaving
  import opened EngineSpec
  import opened EngineProofs
  import opened EngineTheorems
  import opened TwoPass

  // ---------- durable evidence ----------

  /** The pass with this id and weight is stored, as the first pass of its cycle on the way in and, on the way out, as the
      second pass of a completed cycle that has its ticket. */
  ghost predicate Evidence(db: DB, d: Direction, w: Weight, id: string) {
    && id in db.passes && db.passes[id].weight == w
    && db.passes[id].cycleID in db.cycles
    && var r := db.cycles[db.passes[id].cycleID];
       || (d == AToB && r.cycle.first == db.passes[id])
       || (d == BToA && r.status == Complete && r.cycle.second == Some(db.passes[id])
           && exists t :: LedgerProofs.TicketFor(db.tickets, db.passes[id].cycleID, t) && Restates(db.tickets[t].ticket, r.cycle))
  }

  lemma EvidenceStays(u: Unicode, a: DB, b: DB, d: Direction, w: Weight, id: string)
    requires Consistent(u, a) && Consistent(u, b) && Preserves(a, b) && Evidence(a, d, w, id)
    ensures Evidence(b, d, w, id)
  {
    var c := a.passes[id].cycleID;
    assert PassOK(a.cycles, id, a.passes[id]);
    assert RowOK(u, a.passes, c, a.cycles[c]) && RowOK(u, b.passes, c, b.cycles[c]);
    if d == BToA {
      var t :| LedgerProofs.TicketFor(a.tickets, c, t) && Restates(a.tickets[t].ticket, a.cycles[c].cycle);
      assert b.tickets[t].ticket == a.tickets[t].ticket;
      assert LedgerProofs.TicketFor(b.tickets, c, t);
    }
  }

  lemma FirstPassLeavesEvidence(u: Unicode, db: DB, pass: WeighPass, d: Draw, disk: bool)
    requires Consistent(u, db) && pass.id != "" && pass.direction == AToB && RecordFirstPass(u, db, pass, d, disk).cycle.Some?
    ensures Evidence(RecordFirstPass(u, db, pass, d, disk).db, AToB, pass.weight, pass.id)
  {
    var p := FirstPassOf(pass, d);
    var c := Prepared(NewCycle(p, d), d.now);
    var out := RecordFirstPass(u, db, pass, d, disk).db;
    assert c.first.id == pass.id && out.passes[pass.id] == c.first && out.cycles[c.id].cycle == c;
  }

  lemma SecondPassLeavesEvidence(u: Unicode, db: DB, plan: Plan, d: Draw, disk: bool, pass: WeighPass)
    requires Consistent(u, db) && PlanOK(db, plan) && EndSecond(db, plan, d, disk).err.None?
    requires plan.Finish? && plan.paired.second.Some? ==>
               plan.paired.second.value.id == pass.id && plan.paired.second.value.weight == pass.weight
    ensures Evidence(EndSecond(db, plan, d, disk).db, BToA, pass.weight, pass.id)
  {
    EndKeeps(u, db, plan, d, disk);
    var out := EndSecond(db, plan, d, disk).db;
    var c := plan.paired.id;
    assert RowOK(u, out.passes, c, out.cycles[c]);
    assert LedgerProofs.TicketFor(out.tickets, c, plan.ticket.id);
    assert LedgerProofs.TicketOK(out.cycles, plan.ticket.id, out.tickets[plan.ticket.id].ticket);
  }

  /** A commit keeps the store right, whatever other callers do meanwhile, and when it succeeds the evidence is durable. */
  lemma CommitIsDurable(set_: Settings, o: Outside, b: Bridge, shop: Shop, t: PassTicket)
    requires ShopOK(set_.u, shop) && t.id != ""
    ensures var c := Commit(set_, o, b, shop, t);
            && ShopOK(set_.u, c.shop) && Preserves(shop.db, c.shop.db)
            && c.bridge.direction == b.direction && c.bridge.evidence == b.evidence
            && (c.ok ==> b.direction != NoDirection && Evidence(c.shop.db, b.direction, t.weight, t.id))
  {
    var pass := PassFrom(t, b.direction, EvidenceOf(b, t.txID));
    var d := DrawFor(o);
    match b.direction
    case NoDirection =>
    case AToB =>
      var a := First(pass, d, o.disk);
      ShopStep(set_.u, set_.policy, shop, a);
      if RecordFirstPass(set_.u, shop.db, pass, d, o.disk).cycle.Some? {
        FirstPassLeavesEvidence(set_.u, shop.db, pass, d, o.disk);
      }
    case BToA =>
      ReturnIsDurable(set_, o, shop, pass);
  }

  lemma ReturnIsDurable(set_: Settings, o: Outside, shop: Shop, pass: WeighPass)
    requires ShopOK(set_.u, shop) && pass.id != ""
    ensures var d := DrawFor(o);
            var plan := BeginSecond(set_.u, set_.policy, shop.db, pass, d, o.diskFind);
            var later := Interleaving.Run(set_.u, set_.policy, shop, o.between);
            var out := EndSecond(later.db, plan, d, o.disk);
            && ShopOK(set_.u, later.(db := out.db)) && Preserves(shop.db, out.db)
            && (out.err.None? ==> Evidence(out.db, BToA, pass.weight, pass.id))
  {
    var d := DrawFor(o);
    var plan := BeginSecond(set_.u, set_.policy, shop.db, pass, d, o.diskFind);
    BeginPlansSoundly(set_.u, set_.policy, shop.db, pass, d, o.diskFind);
    RunPreserves(set_.u, set_.policy, shop, o.between);
    var later := Interleaving.Run(set_.u, set_.policy, shop, o.between);
    PlanOutlivesRun(set_.u, set_.policy, shop, o.between, plan);
    EndKeeps(set_.u, later.db, plan, d, o.disk);
    var out := EndSecond(later.db, plan, d, o.disk);
    forall p | p in later.procs ensures ProcOK(out.db, later.procs[p]) {
      assert ProcOK(later.db, later.procs[p]);
      if later.procs[p].Returning? { PlanStays(later.db, out.db, later.procs[p].plan); }
    }
    if out.err.None? { SecondPassLeavesEvidence(set_.u, later.db, plan, d, o.disk, pass); }
  }

  lemma {:induction false} PlanOutlivesRun(u: Unicode, policy: Policy, s: Shop, acts: seq<Action>, plan: Plan)
    requires ShopOK(u, s) && PlanOK(s.db, plan)
    ensures PlanOK(Interleaving.Run(u, policy, s, acts).db, plan)
  {
    if acts != [] {
      var init := acts[..|acts| - 1];
      PlanOutlivesRun(u, policy, s, init, plan);
      EveryStateConsistent(u, policy, s, init);
      ShopStep(u, policy, Interleaving.Run(u, policy, s, init), acts[|acts| - 1]);
      PlanStays(Interleaving.Run(u, policy, s, init).db, Interleaving.Run(u, policy, s, acts).db, plan);
    }
  }

  // ---------- the world invariant ----------

  /** Whenever the exit is released, the accepted weight is durable. */
  ghost predicate ReleaseIsDurable(w: World) {
    w.eng.tx.Some? && w.eng.tx.value.outputs.exitOpen ==>
      && w.eng.tx.value.accepted.Some?
      && Evidence(w.shop.db, w.direction, w.eng.tx.value.accepted.value, w.eng.tx.value.ticketID)
  }

  ghost predicate WorldInv(set_: Settings, w: World) {
    && Inv(set_.cfg, w.eng)
    && ShopOK(set_.u, w.shop)
    && w.direction == w.bridge.direction
    && (w.eng.tx.None? ==> w.direction == NoDirection)
    && (w.eng.tx.Some? && w.eng.tx.value.accepted.Some? ==> w.direction != NoDirection)
    && ReleaseIsDurable(w)
  }

  lemma FeedKeeps(set_: Settings, o: Outside, w: World, e: Event)
    requires WorldInv(set_, w) && e != Reset && (e.SeePosition? ==> w.eng.tx.Some?)
    ensures var w' := Feed(set_, o, w, e); WorldInv(set_, w') && w'.direction == w.direction
    ensures w.eng.tx.Some? ==> Feed(set_, o, w, e).eng.tx.Some? && TxID(Feed(set_, o, w, e).eng) == TxID(w.eng)
  {
    var env := EnvFor(set_, o, w);
    var out := Step(set_.cfg, env, w.eng, e);
    StepKeeps(set_.cfg, env, w.eng, e);
    KeepsTransaction(set_.cfg, env, w.eng, e);
    if out.offered.Some? {
      CommitIsDurable(set_, o, w.bridge, w.shop, out.offered.value);
    }
  }

  /** Only a reset ends a transaction; only a position starts one. */
  lemma KeepsTransaction(cfg: Config, env: Env, s: Eng, e: Event)
    requires Inv(cfg, s) && e != Reset
    ensures s.tx.Some? ==> Step(cfg, env, s, e).eng.tx.Some?
    ensures s.tx.None? && !e.SeePosition? ==> Step(cfg, env, s, e).eng.tx.None?
  {
    hide Inv, OnScale, OnPosition, OnFault, OnClear, OnGrant;
    match e
    case SeePosition(p) => OnPositionKeeps(cfg, env, s, p);
    case SetFault(f) => OnFaultKeeps(cfg, env, s, f);
    case ClearFault(d) => OnClearKeeps(cfg, env, s, d);
    case Grant(o) => OnGrantKeeps(cfg, env, s, o);
    case SeeScale(a) => ScaleKeepsTransaction(cfg, env, s, a);
    case _ =>
  }

  lemma ScaleKeepsTransaction(cfg: Config, env: Env, s: Eng, a: Audited)
    ensures OnScale(cfg, env, s, a).eng.tx.Some? <==> s.tx.Some?
  {
    hide EnterWeighing, Weigh;
  }

  // ---------- whole actions ----------

  lemma BindKeeps(set_: Settings, disk: bool, w: World)
    requires WorldInv(set_, w)
    ensures var w' := TryBind(set_, disk, w); WorldInv(set_, w') && w' == w.(bound := w'.bound)
  {
  }

  lemma ResetKeeps(set_: Settings, w: World)
    requires WorldInv(set_, w)
    ensures var w' := DoReset(w);
            && WorldInv(set_, w') && (w' == w || (w'.eng.tx.None? && w'.direction == NoDirection))
            && (w.eng.tx.Some? && w.eng.tx.value.state == Completed ==> w'.eng.tx.None?)
  {
  }

  /** A position event from a directed or an idle world. */
  lemma SensorsKeep(set_: Settings, o: Outside, w: World, p: Position)
    requires WorldInv(set_, w)
    ensures var w1 := Directed(w, p);
            var w' := Feed(set_, o, w1, SeePosition(if w1.direction == BToA then SwapPosition(p) else p));
            && WorldInv(set_, w')
            && (w.eng.tx.Some? ==> w1 == w && w'.direction == w.direction && w'.eng.tx.Some? && TxID(w'.eng) == TxID(w.eng))
  {
    var w1 := Directed(w, p);
    var logical := if w1.direction == BToA then SwapPosition(p) else p;
    if w.eng.tx.Some? {
      assert w1 == w by {
        if w.eng.tx.value.state == Completed { assert Exited(w.eng.tx.value.state); }
      }
      FeedKeeps(set_, o, w, SeePosition(logical));
    } else {
      var env := EnvFor(set_, o, w1);
      OnPositionKeeps(set_.cfg, env, w.eng, logical);
      assert w1.direction != NoDirection ==> logical.entryPresent;
      StartsWhenPresent(set_.cfg, env, w.eng, logical);
    }
  }

  lemma StartsWhenPresent(cfg: Config, env: Env, s: Eng, p: Position)
    requires Inv(cfg, s) && s.tx.None?
    ensures OnPosition(cfg, env, s, p).tx.Some? <==> p.entryPresent
  {
  }

  lemma ElsewhereKeeps(set_: Settings, w: World, a: Action)
    requires WorldInv(set_, w)
    ensures WorldInv(set_, w.(shop := Do(set_.u, set_.policy, w.shop, a)))
  {
    ShopStep(set_.u, set_.policy, w.shop, a);
    var s' := Do(set_.u, set_.policy, w.shop, a);
    if w.eng.tx.Some? && w.eng.tx.value.outputs.exitOpen {
      EvidenceStays(set_.u, w.shop.db, s'.db, w.direction, w.eng.tx.value.accepted.value, w.eng.tx.value.ticketID);
    }
  }

  /** The transaction of w, if it is still there in w', has kept its identifier and its direction. */
  predicate SamePass(w: World, w': World) {
    w.eng.tx.Some? && w'.eng.tx.Some? ==> TxID(w'.eng) == TxID(w.eng) && w'.direction == w.direction
  }

  function Logical(w: World, p: Position): Position {
    if w.direction == BToA then SwapPosition(p) else p
  }

  /** An all-clear position that ends a transaction starts no other. */
  lemma ClearedStartsNothing(set_: Settings, o: Outside, w: World, p: Position)
    requires WorldInv(set_, w) && w.eng.tx.None? && AllClear(p)
    ensures var w1 := Directed(w, p); Feed(set_, o, w1, SeePosition(Logical(w1, p))).eng.tx.None?
  {
    hide OnPosition, WorldInv, Inv;
    var w1 := Directed(w, p);
    assert Inv(set_.cfg, w1.eng) by { InvOf(set_, w); }
    StartsWhenPresent(set_.cfg, EnvFor(set_, o, w1), w1.eng, Logical(w1, p));
  }

  lemma InvOf(set_: Settings, w: World)
    requires WorldInv(set_, w)
    ensures Inv(set_.cfg, w.eng)
  {
  }

  lemma SensorsAct(set_: Settings, o: Outside, w: World, p: Position)
    requires WorldInv(set_, w)
    ensures var w' := Act(set_, o, w, Sensors(p)); WorldInv(set_, w') && SamePass(w, w')
  {
    hide WorldInv, Feed, TryBind, DoReset, Directed, AllClear;
    var w0 := Cleared(w, p);
    ResetKeeps(set_, w);
    SensorsKeep(set_, o, w0, p);
    var w1 := Directed(w0, p);
    var w2 := Feed(set_, o, w1, SeePosition(Logical(w1, p)));
    BindKeeps(set_, o.diskFind, w2);
    if w0 != w { ClearedStartsNothing(set_, o, w0, p); }
  }

  lemma DeviceAct(set_: Settings, o: Outside, w: World, d: Event)
    requires WorldInv(set_, w)
    ensures var w' := Act(set_, o, w, Device(d)); WorldInv(set_, w') && SamePass(w, w')
  {
    hide WorldInv, Feed, TryBind;
    if !d.SeePosition? && d != Reset {
      FeedKeeps(set_, o, w, d);
      BindKeeps(set_, o.diskFind, Feed(set_, o, w, d));
    }
  }

  /** Every action, sensor, device, operator or other caller, keeps the world right; within a transaction the direction
      never changes, and no action swaps one transaction for another. */
  lemma ActKeeps(set_: Settings, o: Outside, w: World, e: WorldEvent)
    requires WorldInv(set_, w)
    ensures var w' := Act(set_, o, w, e);
            && WorldInv(set_, w')
            && (w.eng.tx.Some? && w'.eng.tx.Some? ==> TxID(w'.eng) == TxID(w.eng) && w'.direction == w.direction)
  {
    hide WorldInv, Feed, TryBind, DoReset, Directed;
    match e
    case Sensors(p) => SensorsAct(set_, o, w, p);
    case Device(d) => DeviceAct(set_, o, w, d);
    case CameraShot(c) => CameraKeeps(set_, o, w, c);
    case OperatorReset => ResetKeeps(set_, w);
    case Elsewhere(a) => ElsewhereKeeps(set_, w, a);
  }

  lemma CameraKeeps(set_: Settings, o: Outside, w: World, c: Camera)
    requires WorldInv(set_, w)
    ensures WorldInv(set_, Act(set_, o, w, CameraShot(c)))
  {
  }

  lemma NewWorldInv(set_: Settings)
    requires set_.cfg.confirmations > 0
    ensures WorldInv(set_, NEW_WORLD)
  {
    NewEngineInv(set_.cfg);
    EmptyIsConsistent(set_.u);
  }

  lemma {:induction false} EveryWorldInv(set_: Settings, w: World, script: seq<Cue>)
    requires WorldInv(set_, w)
    ensures WorldInv(set_, Play(set_, w, script))
  {
    if script != [] {
      var init, last := script[..|script| - 1], script[|script| - 1];
      EveryWorldInv(set_, w, init);
      ActKeeps(set_, last.o, Play(set_, w, init), last.e);
    }
  }

  // ---------- the headline results ----------

  /** In every reachable world, whenever the way out is released the accepted weight and its raw reference are durable: on the
      way in as the first pass of a stored cycle, on the way out as the second pass of a completed cycle with its ticket. */
  lemma ReleaseNeedsDurableEvidence(set_: Settings, script: seq<Cue>)
    requires set_.cfg.confirmations > 0
    ensures var w := Play(set_, NEW_WORLD, script);
            w.eng.tx.Some? && w.eng.tx.value.outputs.exitOpen ==>
              && w.eng.tx.value.accepted.Some?
              && Evidence(w.shop.db, w.direction, w.eng.tx.value.accepted.value, w.eng.tx.value.ticketID)
  {
    NewWorldInv(set_);
    EveryWorldInv(set_, NEW_WORLD, script);
  }

  /** Wrapper and bridge agree on the direction in every reachable world, and it is fixed for as long as the transaction lasts. */
  lemma {:induction false} DirectionIsFixed(set_: Settings, w: World, script: seq<Cue>)
    requires WorldInv(set_, w) && w.eng.tx.Some?
    requires forall k :: 0 <= k <= |script| ==> Play(set_, w, script[..k]).eng.tx.Some?
    ensures var r := Play(set_, w, script);
            && r.direction == w.direction && r.bridge.direction == w.direction
            && r.eng.tx.Some? && TxID(r.eng) == TxID(w.eng)
  {
    hide Act, WorldInv;
    if script != [] {
      var n := |script| - 1;
      var init, last := script[..n], script[n];
      forall k | 0 <= k <= n ensures Play(set_, w, init[..k]).eng.tx.Some? {
        assert init[..k] == script[..k];
      }
      DirectionIsFixed(set_, w, init);
      EveryWorldInv(set_, w, init);
      ActKeeps(set_, last.o, Play(set_, w, init), last.e);
      assert script[..n + 1] == script;
      SameDirections(set_, Play(set_, w, script));
    } else {
      assert script[..0] == script;
      SameDirections(set_, w);
    }
  }

  lemma SameDirections(set_: Settings, w: World)
    requires WorldInv(set_, w)
    ensures w.direction == w.bridge.direction
  {
  }

  // ---------- outputs as seen outside ----------

  /** The engine's outputs as the reconciler would see them, on the physical sides. */
  function Physical(w: World): Outputs
    requires w.eng.tx.Some?
  {
    if w.direction == BToA then SwapOutputs(w.eng.tx.value.outputs) else w.eng.tx.value.outputs
  }

  lemma OutcomeLeavesOutputs(v: View, o: Outcome)
    ensures var r := WithOutcome(v, o);
            r.outputs == v.outputs && r.direction == v.direction && r.identity == v.identity && r.state == v.state
  {
  }

  /** The snapshot shows the engine's outputs, turned round on a return, unless the mismatch blanks them. */
  lemma DesiredShape(w: World)
    requires w.eng.tx.Some?
    ensures var t := w.eng.tx.value;
            Desired(w) == if w.direction == BToA && t.identity == IdAccepted && w.bound.None? && t.state != FaultLockout && t.state != Completed
                          then ALL_OFF else Physical(w)
  {
    hide WithOutcome;
    var t := w.eng.tx.value;
    if t.id in w.bridge.outcomes { OutcomeLeavesOutputs(BaseView(w, t), w.bridge.outcomes[t.id]); }
  }

  lemma PairedEngine(cfg: Config, s: Eng)
    requires Inv(cfg, s) && s.tx.Some?
    ensures Paired(s.tx.value.outputs)
  {
    hide Counting, Story;
  }

  lemma NoTransactionNothingDesired(w: World)
    requires w.eng.tx.None?
    ensures Desired(w) == ALL_OFF
  {
  }

  /** In both directions a desired green comes with the same side's open request. */
  lemma DesiredIsPaired(set_: Settings, w: World)
    requires WorldInv(set_, w)
    ensures var d := Desired(w); d.entryGreen == d.entryOpen && d.exitGreen == d.exitOpen && (d.buzzer ==> d.entryOpen || d.exitOpen)
  {
    hide Snapshot, ShopOK, ReleaseIsDurable;
    if w.eng.tx.Some? {
      hide Desired;
      PairedEngine(set_.cfg, w.eng);
      DesiredShape(w);
    } else {
      NoTransactionNothingDesired(w);
    }
  }

  /** A lockout blanks the outputs in either direction, whatever happens next. */
  lemma {:induction false} LockoutBlanksOutputs(set_: Settings, w: World, script: seq<Cue>)
    requires WorldInv(set_, w) && Locked(w.eng)
    ensures var r := Play(set_, w, script); Locked(r.eng) && TxID(r.eng) == TxID(w.eng) && Desired(r) == ALL_OFF
  {
    if script != [] {
      var init, last := script[..|script| - 1], script[|script| - 1];
      LockoutBlanksOutputs(set_, w, init);
      EveryWorldInv(set_, w, init);
      LockedAct(set_, last.o, Play(set_, w, init), last.e);
      DesiredWhenLocked(Play(set_, w, script));
    } else {
      DesiredWhenLocked(w);
    }
  }

  lemma DesiredWhenLocked(w: World)
    requires Locked(w.eng)
    ensures Desired(w) == ALL_OFF
  {
    hide Desired;
    DesiredShape(w);
  }

  lemma FeedLocked(set_: Settings, o: Outside, w: World, e: Event)
    requires Inv(set_.cfg, w.eng) && Locked(w.eng)
    ensures var r := Feed(set_, o, w, e); Locked(r.eng) && TxID(r.eng) == TxID(w.eng) && r == w.(eng := r.eng)
  {
    LockedStep(set_.cfg, EnvFor(set_, o, w), w.eng, e);
  }

  lemma BindLeavesEngine(set_: Settings, disk: bool, w: World)
    ensures TryBind(set_, disk, w).eng == w.eng
  {
  }

  lemma LockedSensors(set_: Settings, o: Outside, w: World, p: Position)
    requires Inv(set_.cfg, w.eng) && Locked(w.eng)
    ensures var r := Act(set_, o, w, Sensors(p)); Locked(r.eng) && TxID(r.eng) == TxID(w.eng)
  {
    assert Directed(w, p) == w;
    var e := SeePosition(if w.direction == BToA then SwapPosition(p) else p);
    FeedLocked(set_, o, w, e);
    BindLeavesEngine(set_, o.diskFind, Feed(set_, o, w, e));
  }

  lemma LockedDevice(set_: Settings, o: Outside, w: World, d: Event)
    requires Inv(set_.cfg, w.eng) && Locked(w.eng)
    ensures var r := Act(set_, o, w, Device(d)); Locked(r.eng) && TxID(r.eng) == TxID(w.eng)
  {
    FeedLocked(set_, o, w, d);
    BindLeavesEngine(set_, o.diskFind, Feed(set_, o, w, d));
  }

  lemma LockedAct(set_: Settings, o: Outside, w: World, e: WorldEvent)
    requires Inv(set_.cfg, w.eng) && Locked(w.eng)
    ensures var r := Act(set_, o, w, e); Locked(r.eng) && TxID(r.eng) == TxID(w.eng)
  {
    if e.Sensors? {
      LockedSensors(set_, o, w, e.p);
    } else if e.Device? {
      LockedDevice(set_, o, w, e.e);
    } else {
      assert Act(set_, o, w, e).eng == w.eng;
    }
  }

  /** Exactly when does a return show a permissive output without a called cycle: the engine desires one and the wrapper's
      blanking does not apply, because identity is no longer accepted. */
  lemma UncalledReturnExactly(set_: Settings, w: World)
    requires WorldInv(set_, w) && w.eng.tx.Some? && w.direction == BToA && w.bound.None?
    ensures Desired(w) != ALL_OFF <==> w.eng.tx.value.outputs != ALL_OFF && w.eng.tx.value.identity != IdAccepted
  {
    hide Desired, ShopOK, ReleaseIsDurable, Counting, Story;
    DesiredShape(w);
  }
}
