/**
 The audit recorder as an object: it brackets every action with two snapshots and appends their difference entry by entry.
 */
module RecorderObjects {
  import opened Domain
  import opened EngineSpec
  import opened TwoPass
  import opened Workflows
  import R = Recorders
  import P = RecorderProofs

  class Recorder {
    const engine: Workflow
    var log: seq<R.Entry>

    constructor (engine: Workflow)
      ensures this.engine == engine && log == []
    {
      this.engine, log := engine, [];
    }

    const LOST := Fault(AuditStore, Faulty, "operational audit append failed", false, true)

    ghost function State(): P.Logged
      reads this, engine, engine.inner, engine.bridge, engine.bridge.others, engine.bridge.others.cycles.store
    {
      P.Logged(engine.World(), log)
    }

    method Append(entry: R.Entry, disk: bool) returns (ok: bool)
      modifies this
      ensures ok == disk && log == if disk then old(log) + [entry] else old(log)
    {
      if disk { log := log + [entry]; }
      ok := disk;
    }

    /** Snapshot, act, snapshot, and append the difference entry by entry; the first append that fails is reported as a fault. */
    method Record(o: Outside, e: WorldEvent, disk: nat -> bool) returns (ok: bool)
      requires engine.Wired() && !e.Elsewhere?
      requires e.Device? ==> !e.e.SeePosition? && e.e != Reset
      modifies this, engine, engine.inner, engine.bridge, engine.bridge.others, engine.cycles.store
      ensures State() == P.Record(engine.Settings(), o, old(State()), e, disk)
      ensures ok == P.Reported(engine.Settings(), o, old(State()), e, disk)
    {
      hide Act, TwoPass.Snapshot, R.Diff, Answer, P.Reaches;
      var before := engine.Snapshot();
      var done := Carry(o, e);
      var after := engine.Snapshot();
      var entries := R.Diff(before, after);
      var start := |log|;
      var i := 0;
      while i < |entries|
        invariant 0 <= i <= |entries| && log == old(log) + entries[..i]
        invariant forall k {:trigger disk(k)} :: start <= k < start + i ==> disk(k)
        invariant engine.World() == Act(engine.Settings(), o, old(engine.World()), e)
      {
        assert entries[..i + 1] == entries[..i] + [entries[i]];
        var appended := Append(entries[i], disk(start + i));
        if !appended {
          P.ReachesExactly(disk, start, |entries|, i);
          engine.ObserveFault(o, LOST);
          return false;
        }
        i := i + 1;
      }
      P.ReachesExactly(disk, start, |entries|, i);
      assert entries[..i] == entries;
      ok := done;
    }

    method Carry(o: Outside, e: WorldEvent) returns (done: bool)
      requires engine.Wired() && !e.Elsewhere?
      requires e.Device? ==> !e.e.SeePosition? && e.e != Reset
      modifies engine, engine.inner, engine.bridge, engine.bridge.others, engine.cycles.store
      ensures engine.World() == Act(engine.Settings(), o, old(engine.World()), e)
      ensures done == Answer(engine.Settings(), o, old(engine.World()), e)
    {
      hide Act, EnvFor, OnScale, OnGrant;
      done := true;
      match e
      case Sensors(p) => engine.ObservePosition(o, p);
      case CameraShot(c) => done := engine.ObserveCamera(o, c);
      case OperatorReset => done := engine.ResetCompleted(o);
      case Device(d) =>
        match d {
          case SeeTag(tag) => engine.ObserveRFID(o, tag);
          case SeePlate(plate) => engine.ObserveLPR(o, plate);
          case SeeScale(a) => done := engine.ObserveScale(o, a);
          case SetFault(f) => engine.ObserveFault(o, f);
          case ClearFault(dev) => engine.ClearFault(o, dev);
          case Grant(g) => done := engine.AuthorizeOverride(o, g);
        }
    }
  }
}
