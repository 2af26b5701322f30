/**
 The two-way wrapper as an object (internal/twopass/workflow.go), around the engine and the commit bridge.
 */
module Workflows {
  import opened Domain
  import opened Ledger
  import opened EngineSpec
  import opened TwoPass
  import opened Coordinators
  import opened Bridges
  import opened Engines
  import T = TwoPass

  class Workflow {
    const inner: Engine
    const bridge: CommitBridge
    const cycles: Coordinator
    var direction: Direction
    var bound: Option<WeighCycle>

    ghost predicate Wired()
      reads {}
    {
      inner.tickets == bridge && bridge.cycles == cycles && bridge.Shares() && inner.u == cycles.store.u
    }

    ghost function Settings(): T.Settings
      reads {}
    {
      T.Settings(inner.cfg, cycles.policy, cycles.store.u)
    }

    ghost function World(): T.World
      reads this, inner, bridge, bridge.others, bridge.others.cycles.store
    {
      T.World(inner.State(), direction, bound, bridge.State(), bridge.Shop())
    }

    constructor (inner: Engine, bridge: CommitBridge, cycles: Coordinator)
      ensures this.inner == inner && this.bridge == bridge && this.cycles == cycles
      ensures direction == NoDirection && bound == None
    {
      this.inner, this.bridge, this.cycles, direction, bound := inner, bridge, cycles, NoDirection, None;
    }

    method ObservePosition(o: Outside, physical: Position)
      requires Wired()
      modifies this, inner, bridge
      ensures World() == Act(Settings(), o, old(World()), Sensors(physical))
    {
      hide OnPosition, T.TryBind, T.Commit, DoReset, Directed;
      Clear(physical);
      Direct(physical);
      var logical := physical;
      if direction == BToA { logical := SwapPosition(physical); }
      ghost var env := EnvFor(Settings(), o, World());
      ghost var w := World();
      inner.ObservePosition(o, logical, env);
      assert World() == Feed(Settings(), o, w, SeePosition(logical));
      TryBindCalled(o);
    }

    /** A completed transaction goes once nobody is present. */
    method Clear(physical: Position)
      requires Wired()
      modifies this, inner, bridge
      ensures World() == Cleared(old(World()), physical)
    {
      if inner.tx.Some? && inner.tx.value.state == Completed && AllClear(physical) {
        var txID := inner.tx.value.id;
        var ok := inner.ResetCompleted();
        if ok { ResetSession(txID); }
      }
    }

    /** The first position of a pass fixes its direction, here and in the bridge. */
    method Direct(physical: Position)
      modifies this`direction, bridge
      ensures World() == Directed(old(World()), physical)
    {
      if direction == NoDirection && !(inner.tx.Some? && inner.tx.value.state != Completed) {
        direction := DetectDirection(physical);
        if direction != NoDirection { bridge.SetDirection(direction); }
      }
    }

    /** A return binds the called cycle its accepted identity resolves to, or none. */
    method TryBindCalled(o: Outside)
      requires Wired()
      modifies this`bound
      ensures World() == T.TryBind(Settings(), o.diskFind, old(World()))
    {
      hide FindCalled;
      if direction != BToA { return; }
      if inner.tx.None? || inner.tx.value.identity != IdAccepted { return; }
      if !o.diskFind {
        bound := None;
        return;
      }
      var f := cycles.store.FindCalledCycle(inner.tx.value.plate.plate, inner.tx.value.tag.tag);
      bound := if f.Found? then Some(f.cycle) else None;
    }

    method ResetSession(txID: string)
      modifies this, bridge
      ensures World() == T.ResetSession(old(World()), txID)
    {
      direction := NoDirection;
      bound := None;
      bridge.Reset(txID);
    }

    method ObserveRFID(o: Outside, tag: TagRead)
      requires Wired()
      modifies this, inner
      ensures World() == Act(Settings(), o, old(World()), Device(SeeTag(tag)))
    {
      hide EvaluateIdentity, T.TryBind, T.Commit;
      ghost var w, env := World(), EnvFor(Settings(), o, World());
      inner.ObserveRFID(o, tag, env);
      assert World() == Feed(Settings(), o, w, SeeTag(tag));
      TryBindCalled(o);
    }

    method ObserveLPR(o: Outside, plate: PlateRead)
      requires Wired()
      modifies this, inner
      ensures World() == Act(Settings(), o, old(World()), Device(SeePlate(plate)))
    {
      hide EvaluateIdentity, T.TryBind, T.Commit;
      ghost var w, env := World(), EnvFor(Settings(), o, World());
      inner.ObserveLPR(o, plate, env);
      assert World() == Feed(Settings(), o, w, SeePlate(plate));
      TryBindCalled(o);
    }

    method ObserveCamera(o: Outside, c: Camera) returns (ok: bool)
      requires Wired()
      modifies bridge
      ensures World() == Act(Settings(), o, old(World()), CameraShot(c))
      ensures ok == Answer(Settings(), o, old(World()), CameraShot(c))
    {
      var txID := "";
      if inner.tx.Some? && inner.tx.value.state != Completed { txID := inner.tx.value.id; }
      ok := bridge.AddEvidence(txID, c);
    }

    /** A frame that completes the streak is committed through the bridge. */
    method ObserveScale(o: Outside, a: Audited) returns (ok: bool)
      requires Wired()
      modifies inner, bridge, bridge.others, cycles.store
      ensures World() == Act(Settings(), o, old(World()), Device(SeeScale(a)))
      ensures ok == Answer(Settings(), o, old(World()), Device(SeeScale(a)))
    {
      hide OnScale, T.Commit;
      ghost var env, offered := EnvFor(Settings(), o, World()), None;
      assert inner.Serves(Settings(), o, env);
      ok, offered := inner.ObserveScale(Settings(), o, a, env);
    }

    method ObserveFault(o: Outside, f: Fault)
      requires Wired()
      modifies inner
      ensures World() == Act(Settings(), o, old(World()), Device(SetFault(f)))
    {
      hide OnFault, T.Commit;
      inner.ObserveFault(o, f, EnvFor(Settings(), o, World()));
    }

    method ClearFault(o: Outside, d: Domain.Device)
      requires Wired()
      modifies inner
      ensures World() == Act(Settings(), o, old(World()), TwoPass.Device(EngineSpec.ClearFault(d)))
    {
      hide OnClear, T.Commit;
      inner.ClearFault(o, d, EnvFor(Settings(), o, World()));
    }

    method AuthorizeOverride(o: Outside, g: Override) returns (ok: bool)
      requires Wired()
      modifies inner
      ensures World() == Act(Settings(), o, old(World()), Device(Grant(g)))
      ensures ok == Answer(Settings(), o, old(World()), Device(Grant(g)))
    {
      hide Grantable, T.Commit;
      ok := inner.AuthorizeOverride(o, g, EnvFor(Settings(), o, World()));
    }

    method ResetCompleted(o: Outside) returns (ok: bool)
      requires Wired()
      modifies this, inner, bridge
      ensures World() == Act(Settings(), o, old(World()), OperatorReset)
      ensures ok == Answer(Settings(), o, old(World()), OperatorReset)
    {
      var txID := "";
      if inner.tx.Some? { txID := inner.tx.value.id; }
      ok := inner.ResetCompleted();
      if ok { ResetSession(txID); }
    }

    /** The engine's transaction, seen from the physical sides, with the business cycle laid over it. */
    method Snapshot() returns (v: Option<View>)
      requires Wired()
      ensures v == T.Snapshot(World())
    {
      hide BaseView, WithOutcome;
      if inner.tx.None? { return None; }
      var tx := Turned(inner.tx.value);
      if inner.tx.value.id in bridge.outcomes { tx := Overlay(tx, bridge.outcomes[inner.tx.value.id]); }
      if tx.direction == BToA && tx.identity == IdAccepted && bound.None? && tx.state != FaultLockout && tx.state != Completed {
        tx := tx.(state := QueueMismatch, cycleStatus := Some(UnpairedReturn), businessComplete := false, outputs := ALL_OFF);
      }
      v := Some(tx);
    }

    method Turned(t: Tx) returns (tx: View)
      requires Wired()
      ensures tx == BaseView(World(), t)
    {
      hide FaultList;
      var d := direction;
      if d == NoDirection { d := AToB; }
      tx := View(t.id, t.state, t.mode, d, if d == AToB then 1 else 2, "", None, false, 0, 0, 0, t.tag, t.plate, bridge.Evidence(t.id),
                 t.identity, t.reason, t.position, t.pos, FaultList(t.faults, ALL_DEVICES), t.overrides, t.accepted, t.ticketID, t.outputs);
      if d == BToA { tx := tx.(pos := SwapPosition(tx.pos), outputs := SwapOutputs(tx.outputs)); }
      if bound.Some? {
        var c := bound.value;
        tx := tx.(cycleID := c.id, cycleStatus := Some(c.status), gross := c.gross, tare := c.tare, net := c.net);
      }
    }

    static method Overlay(v: View, out: Outcome) returns (tx: View)
      ensures tx == WithOutcome(v, out)
    {
      tx := v;
      if out.cycle.Some? {
        tx := tx.(cycleID := out.cycle.value.id, cycleStatus := Some(out.cycle.value.status));
      } else {
        tx := tx.(cycleID := "", cycleStatus := None);
      }
      if out.direction == AToB { tx := tx.(ticketID := "", businessComplete := false); }
      if out.direction == BToA && out.ticket.Some? && out.ticket.value.id != "" && out.cycle.Some? {
        var c := out.cycle.value;
        tx := tx.(ticketID := out.ticket.value.id, businessComplete := true, cycleStatus := Some(Complete),
                  gross := c.gross, tare := c.tare, net := c.net);
      }
      if out.failed { tx := tx.(businessComplete := false); }
    }
  }
}
