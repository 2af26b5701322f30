/**
 What everybody else sees of a pass: which called cycle a return is bound to, which direction a pass takes, and what the snapshot shows.
 */
module Views {
  import opened Domain
  import opened Pairing
  import opened Ledger
  import opened StoreHistories
  import opened EngineSpec
  import opened TwoPass
  import opened TwoPassProofs
  import F = FaultLogs
  import Coordination
  import Interleaving

  // ---------- the binding ----------

  /** The action has the wrapper look for the called cycle again: a position, a tag or a plate. */
  predicate Rebinds(e: WorldEvent) {
    e.Sensors? || (e.Device? && (e.e.SeeTag? || e.e.SeePlate?))
  }

  /** After such an action a return with an accepted identity is bound to a cycle exactly when the search works and one row alone is called
      and answers to the transaction's plate and tag: to that row's cycle. Any other pass keeps its binding. */
  lemma BindingExactly(set_: Settings, o: Outside, w: World, e: WorldEvent)
    requires Rebinds(e)
    ensures var r := Act(set_, o, w, e); var returning := r.direction == BToA && r.eng.tx.Some? && r.eng.tx.value.identity == IdAccepted;
            returning ==>
              var t, rows := r.eng.tx.value, r.shop.db.cycles;
              && (r.bound.Some? <==>
                   o.diskFind && VehicleKey(set_.u, t.plate.plate) != ""
                   && exists c :: c in rows && OneAnswers(set_.u, r.shop.db, t.plate.plate, t.tag.tag, c))
              && (r.bound.Some? ==>
                   exists c :: c in rows && OneAnswers(set_.u, r.shop.db, t.plate.plate, t.tag.tag, c) && r.bound.value == rows[c].cycle)
  {
    hide Feed, FindCalled, VehicleKey, OneAnswers, Directed, Cleared;
    var fed := match e
      case Sensors(p) =>
        var w1 := Directed(Cleared(w, p), p);
        Feed(set_, o, w1, SeePosition(if w1.direction == BToA then SwapPosition(p) else p))
      case Device(d) => Feed(set_, o, w, d)
      case _ => w;
    assert Act(set_, o, w, e) == TryBind(set_, o.diskFind, fed);
    if fed.eng.tx.Some? { SearchExactly(set_.u, fed.shop.db, fed.eng.tx.value.plate.plate, fed.eng.tx.value.tag.tag); }
  }

  /** Nothing else binds, unbinds or redirects a pass; a reset does only when no transaction is under way. */
  lemma OthersLeaveTheBinding(set_: Settings, o: Outside, w: World, e: WorldEvent)
    requires !Rebinds(e) && (e.OperatorReset? ==> w.eng.tx.Some? && w.eng.tx.value.state != Completed)
    ensures var r := Act(set_, o, w, e); r.bound == w.bound && r.direction == w.direction
  {
    hide Step, Commit, EnvFor, Interleaving.Do;
  }

  // ---------- the end of a pass ----------

  /** Of w's transaction nothing is left in r: no direction, no binding, no outcome and no camera records; what is remembered of others stays,
      and so does the store. */
  predicate Forgotten(w: World, r: World)
    requires w.eng.tx.Some?
  {
    var id := w.eng.tx.value.id;
    && r.eng.tx.None? && r.direction == NoDirection && r.bound.None? && r.bridge.direction == NoDirection && r.shop == w.shop
    && id !in r.bridge.outcomes && id !in r.bridge.evidence
    && r.bridge.outcomes == w.bridge.outcomes - {id} && r.bridge.evidence == w.bridge.evidence - {id}
  }

  /** Nobody is at either end or on the deck. */
  predicate SiteEmpty(p: Position) {
    !(p.entryPresent || p.frontPresent || p.rearPresent || p.exitPresent)
  }

  /** A completed pass is forgotten by a reset, and by a position that shows the site empty; no other position ends a transaction. */
  lemma CompletedIsForgotten(set_: Settings, o: Outside, w: World, p: Position)
    requires WorldInv(set_, w) && w.eng.tx.Some? && w.eng.tx.value.id != ""
    ensures var done, empty := w.eng.tx.value.state == Completed, SiteEmpty(p);
            && (if done then Forgotten(w, Act(set_, o, w, OperatorReset)) else Act(set_, o, w, OperatorReset) == w)
            && (done && empty ==> Forgotten(w, Act(set_, o, w, Sensors(p))))
            && (!(done && empty) ==> Act(set_, o, w, Sensors(p)).eng.tx.Some? && TxID(Act(set_, o, w, Sensors(p)).eng) == w.eng.tx.value.id)
  {
    hide Act, WorldInv, Forgotten, SiteEmpty;
    ResetOf(set_, o, w);
    SensorsOf(set_, o, w, p);
    if !(w.eng.tx.value.state == Completed && SiteEmpty(p)) { SensorsStay(set_, o, w, p); }
  }

  lemma SensorsStay(set_: Settings, o: Outside, w: World, p: Position)
    requires WorldInv(set_, w) && w.eng.tx.Some? && !(w.eng.tx.value.state == Completed && SiteEmpty(p))
    ensures var r := Act(set_, o, w, Sensors(p)).eng; r.tx.Some? && TxID(r) == w.eng.tx.value.id
  {
    hide Act, Step, EnvFor, WorldInv;
    ActKeeps(set_, o, w, Sensors(p));
    F.SensorsEngine(set_, o, w, p);
    var f := F.Facing(w, p);
    assert f.eng == w.eng;
    F.StepFaults(set_.cfg, EnvFor(set_, o, f), f.eng, SeePosition(Logical(f, p)));
  }

  lemma ResetOf(set_: Settings, o: Outside, w: World)
    requires w.eng.tx.Some? && w.eng.tx.value.id != ""
    ensures var r := Act(set_, o, w, OperatorReset); if w.eng.tx.value.state == Completed then Forgotten(w, r) else r == w
  {
  }

  lemma SensorsOf(set_: Settings, o: Outside, w: World, p: Position)
    requires w.eng.tx.Some? && w.eng.tx.value.id != ""
    ensures w.eng.tx.value.state == Completed && SiteEmpty(p) ==> Forgotten(w, Act(set_, o, w, Sensors(p)))
  {
    hide TryAuthorize;
  }

  /** A camera record is taken, last after those of the pass under way, exactly when there is one and camera and image are named; the caller is
      told so. A reset is refused exactly while a transaction is under way. */
  lemma AnswersExactly(set_: Settings, o: Outside, w: World, c: Camera)
    ensures var r, t := Act(set_, o, w, CameraShot(c)), w.eng.tx;
            var taken := t.Some? && t.value.state != Completed && t.value.id != "" && c.cameraID != "" && c.imageRef != "";
            && (Answer(set_, o, w, CameraShot(c)) <==> taken) && (!taken ==> r == w)
            && (taken ==>
                 && r == w.(bridge := w.bridge.(evidence := r.bridge.evidence)) && t.value.id in r.bridge.evidence
                 && r.bridge.evidence == w.bridge.evidence[t.value.id := r.bridge.evidence[t.value.id]]
                 && r.bridge.evidence[t.value.id]
                    == (if t.value.id in w.bridge.evidence then w.bridge.evidence[t.value.id] else []) + [c])
    ensures Answer(set_, o, w, OperatorReset) <==> w.eng.tx.None? || w.eng.tx.value.state == Completed
  {
  }

  /** Once a pass has a direction, its commit is remembered under its transaction, and as failed exactly when it was refused. */
  lemma OutcomeIsRemembered(set_: Settings, o: Outside, b: Bridge, shop: Interleaving.Shop, t: PassTicket)
    ensures var c := Commit(set_, o, b, shop, t);
            if b.direction == NoDirection then !c.ok && c.bridge == b && c.shop == shop
            else
              && t.txID in c.bridge.outcomes && c.bridge.outcomes == b.outcomes[t.txID := c.bridge.outcomes[t.txID]]
              && c.bridge == b.(outcomes := c.bridge.outcomes)
              && c.bridge.outcomes[t.txID].direction == b.direction && (c.bridge.outcomes[t.txID].failed <==> !c.ok)
  {
    hide Coordination.BeginSecond, Coordination.EndSecond, Coordination.RecordFirstPass, Interleaving.Run;
  }

  // ---------- the direction ----------

  /** A pass takes its direction from the end at which a truck is first seen alone, while there is none and no pass is under way; both ends,
      or neither, give none. */
  lemma DirectionExactly(set_: Settings, o: Outside, w: World, p: Position)
    requires w.eng.tx.None? && w.direction == NoDirection
    ensures var r := Act(set_, o, w, Sensors(p));
            && (r.direction == AToB <==> p.entryPresent && !p.exitPresent)
            && (r.direction == BToA <==> p.exitPresent && !p.entryPresent)
            && (r.direction != NoDirection ==> r.bridge.direction == r.direction)
  {
    hide Step, EnvFor, TryBind, Feed;
    var w1 := Directed(Cleared(w, p), p);
    var w2 := Feed(set_, o, w1, SeePosition(if w1.direction == BToA then SwapPosition(p) else p));
    FeedKeepsDirections(set_, o, w1, SeePosition(if w1.direction == BToA then SwapPosition(p) else p));
    BindKeepsDirections(set_, o.diskFind, w2);
  }

  lemma FeedKeepsDirections(set_: Settings, o: Outside, w: World, e: Event)
    ensures var r := Feed(set_, o, w, e); r.direction == w.direction && r.bridge.direction == w.bridge.direction
  {
    hide Step, EnvFor, Coordination.BeginSecond, Coordination.EndSecond, Coordination.RecordFirstPass;
  }

  lemma BindKeepsDirections(set_: Settings, disk: bool, w: World)
    ensures var r := TryBind(set_, disk, w); r.direction == w.direction && r.bridge == w.bridge
  {
    hide FindCalled;
  }

  // ---------- the snapshot ----------

  /** What does not depend on what became of the pass is shown as the engine has it, sensors and all turned round on a return; a pass
      without a direction is shown as one inwards. */
  lemma SnapshotShowsThePass(w: World)
    requires w.eng.tx.Some?
    ensures var t, v, back := w.eng.tx.value, Snapshot(w).value, w.direction == BToA;
            && Snapshot(w).Some? && v.id == t.id && v.mode == t.mode && v.identity == t.identity && v.reason == t.reason
            && v.tag == t.tag && v.plate == t.plate && v.position == t.position && v.overrides == t.overrides && v.accepted == t.accepted
            && v.camera == (if t.id in w.bridge.evidence then w.bridge.evidence[t.id] else [])
            && v.direction == (if back then BToA else AToB) && v.passNumber == (if back then 2 else 1)
            && v.pos.safetyClear == t.pos.safetyClear && v.pos.observed == t.pos.observed
            && v.pos.entryPresent == (if back then t.pos.exitPresent else t.pos.entryPresent)
            && v.pos.exitPresent == (if back then t.pos.entryPresent else t.pos.exitPresent)
            && v.pos.frontPresent == (if back then t.pos.rearPresent else t.pos.frontPresent)
            && v.pos.rearPresent == (if back then t.pos.frontPresent else t.pos.rearPresent)
            && v.pos.entryOpen == (if back then t.pos.exitOpen else t.pos.entryOpen)
            && v.pos.exitOpen == (if back then t.pos.entryOpen else t.pos.exitOpen)
            && v.pos.entryClosed == (if back then t.pos.exitClosed else t.pos.entryClosed)
            && v.pos.exitClosed == (if back then t.pos.entryClosed else t.pos.exitClosed)
  {
    hide Snapshot, FaultList;
    ShownAsBase(w);
  }

  lemma ShownAsBase(w: World)
    requires w.eng.tx.Some?
    ensures Snapshot(w).Some?
    ensures var b, v := BaseView(w, w.eng.tx.value), Snapshot(w).value;
            && v.id == b.id && v.mode == b.mode && v.identity == b.identity && v.reason == b.reason && v.tag == b.tag && v.plate == b.plate
            && v.position == b.position && v.overrides == b.overrides && v.accepted == b.accepted && v.camera == b.camera
            && v.direction == b.direction && v.passNumber == b.passNumber && v.pos == b.pos
  {
    hide WithOutcome, BaseView;
    var t := w.eng.tx.value;
    if t.id in w.bridge.outcomes { OutcomeLeavesThePass(BaseView(w, t), w.bridge.outcomes[t.id]); }
  }

  /** An outcome changes only what the cycle and its ticket say. */
  lemma OutcomeLeavesThePass(v: View, o: Outcome)
    ensures WithOutcome(v, o)
            == v.(cycleID := WithOutcome(v, o).cycleID, cycleStatus := WithOutcome(v, o).cycleStatus, ticketID := WithOutcome(v, o).ticketID,
                  businessComplete := WithOutcome(v, o).businessComplete, gross := WithOutcome(v, o).gross, tare := WithOutcome(v, o).tare,
                  net := WithOutcome(v, o).net)
  {
  }

  /** An uncalled return that has been identified, and is neither locked out nor complete, is shown as a queue mismatch, unpaired and with
      everything off; every other pass in its own state. */
  lemma MismatchExactly(w: World)
    requires w.eng.tx.Some? && w.eng.tx.value.state != QueueMismatch
    ensures Snapshot(w).Some?
    ensures var t, v := w.eng.tx.value, Snapshot(w).value;
            var mismatch := w.direction == BToA && t.identity == IdAccepted && w.bound.None? && t.state != FaultLockout && t.state != Completed;
            && (v.state == QueueMismatch <==> mismatch) && (!mismatch ==> v.state == t.state)
            && (mismatch ==> v.cycleStatus == Some(UnpairedReturn) && !v.businessComplete
                             && v.outputs == Outputs(false, false, false, false, false))
  {
    hide WithOutcome, FaultList;
    var t := w.eng.tx.value;
    if t.id in w.bridge.outcomes { OutcomeLeavesThePass(BaseView(w, t), w.bridge.outcomes[t.id]); }
  }

  /** Without an outcome, and unless it is a mismatch, the snapshot shows the bound cycle; with one, the cycle and the ticket it names. The
      business is complete exactly after a return that did not fail and has a ticket, and then its figures are the cycle's. */
  lemma BusinessShown(w: World)
    requires w.eng.tx.Some? && !(w.direction == BToA && w.eng.tx.value.identity == IdAccepted && w.bound.None?)
    ensures Snapshot(w).Some?
    ensures var t, v := w.eng.tx.value, Snapshot(w).value;
            if t.id !in w.bridge.outcomes then
              && !v.businessComplete && v.ticketID == t.ticketID
              && v.cycleID == (if w.bound.Some? then w.bound.value.id else "")
              && v.cycleStatus == (if w.bound.Some? then Some(w.bound.value.status) else None)
              && (v.gross, v.tare, v.net) == (if w.bound.Some? then (w.bound.value.gross, w.bound.value.tare, w.bound.value.net) else (0, 0, 0))
            else
              var o := w.bridge.outcomes[t.id];
              var complete := o.direction == BToA && o.cycle.Some? && o.ticket.Some? && o.ticket.value.id != "";
              && (v.businessComplete <==> complete && !o.failed)
              && v.cycleID == (if o.cycle.Some? then o.cycle.value.id else "")
              && v.ticketID == (if o.direction == AToB then "" else if complete then o.ticket.value.id else t.ticketID)
              && (complete ==> v.cycleStatus == Some(Complete)
                               && (v.gross, v.tare, v.net) == (o.cycle.value.gross, o.cycle.value.tare, o.cycle.value.net))
              && (!complete ==> v.cycleStatus == if o.cycle.Some? then Some(o.cycle.value.status) else None)
  {
    hide FaultList;
  }
}
