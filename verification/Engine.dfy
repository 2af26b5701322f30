/**
 The engine as an object (internal/engine/engine.go): every handler and helper works on the fields step by step and is proved
 against the function of the same name in EngineSpec.
 */
module Engines {
  import opened Domain
  import opened Pairing
  import opened EngineSpec
  import opened TwoPass
  import opened Bridges
  import S = EngineSpec
  import T = TwoPass

  class Engine {
    const cfg: Config
    const u: Unicode
    const tickets: CommitBridge?
    var tx: Option<Tx>
    var lastScale: Option<Audited>
    var faults: map<Device, Fault>
    var stableBase: Option<Audited>
    ghost var marks: seq<Mark>
    ghost var frames: seq<Audited>

    ghost function State(): Eng
      reads this
    {
      Eng(tx, lastScale, faults, stableBase, marks, frames)
    }

    /** What a commit reaches beyond the engine. */
    ghost function Beyond(): set<object> {
      if tickets == null then {} else {tickets, tickets.others, tickets.cycles.store, tickets.others.cycles.store}
    }

    constructor (cfg: Config, u: Unicode, tickets: CommitBridge?)
      ensures State() == NEW_ENGINE && this.cfg == Configured(cfg) && this.u == u && this.tickets == tickets
    {
      var c := cfg;
      if c.station == "" { c := c.(station := "EDGE-01"); }
      if c.emptyMax <= 0 { c := c.(emptyMax := 500); }
      if c.minStable <= 0 { c := c.(minStable := 500); }
      if c.confirmations <= 0 { c := c.(confirmations := 2); }
      if c.tolerance < 0 { c := c.(tolerance := 0); }
      this.cfg, this.u, this.tickets := c, u, tickets;
      tx, lastScale, faults, stableBase, marks, frames := None, None, map[], None, [], [];
    }

    /** The environment of the specification is what this call draws from outside. */
    ghost predicate Serves(set_: Settings, o: Outside, env: Env)
      reads Beyond()
    {
      && env.now == o.now && env.suffix == o.suffix && env.registry == o.registry && env.u == u
      && (tickets == null ==> env.sink == NoStore)
      && (tickets != null ==>
           && tickets.Shares() && set_.u == tickets.cycles.store.u && set_.policy == tickets.cycles.policy
           && env.sink.Store?
           && forall t {:trigger env.sink.commit(t)} :: env.sink.commit(t) == T.Commit(set_, o, tickets.State(), tickets.Shop(), t).ok)
    }

    // ---------- helpers ----------

    method Transition(st: State)
      requires tx.Some?
      modifies this`tx
      ensures tx == Some(old(tx).value.(state := st))
    {
      tx := Some(tx.value.(state := st));
    }

    method Lockout()
      requires tx.Some?
      modifies this`tx
      ensures State() == Lock(old(State()))
    {
      tx := Some(tx.value.(mode := Mode.Lockout));
      tx := Some(tx.value.(state := FaultLockout));
      tx := Some(tx.value.(outputs := ALL_OFF));
    }

    method SyncFaultSlice()
      requires tx.Some?
      modifies this`tx
      ensures State() == SyncFaults(old(State()))
    {
      tx := Some(tx.value.(faults := faults));
    }

    method AuxFaultCount() returns (count: nat)
      ensures count == |AuxDevices(faults)|
    {
      count := 0;
      var rest := faults.Keys;
      ghost var counted: set<Device> := {};
      while rest != {}
        invariant rest <= faults.Keys && count == |counted|
        invariant counted == set d | d in faults && d !in rest && IsAux(faults, d)
        decreases |rest|
      {
        var d :| d in rest;
        rest := rest - {d};
        if d != Scale && !faults[d].critical && faults[d].overridable {
          counted := counted + {d};
          count := count + 1;
        }
      }
      assert counted == AuxDevices(faults);
    }

    method HasOverride(d: Device, e: Evidence) returns (found: bool)
      requires tx.Some?
      ensures found == S.HasOverride(tx.value, d, e)
    {
      var overrides := tx.value.overrides;
      for i := 0 to |overrides|
        invariant forall k :: 0 <= k < i ==> !(overrides[k].device == d && overrides[k].expiredAt.None? && e in overrides[k].evidence)
      {
        var o := overrides[i];
        if o.device == d && o.expiredAt.None? {
          for j := 0 to |o.evidence|
            invariant e !in o.evidence[..j]
          {
            if o.evidence[j] == e { return true; }
          }
          assert o.evidence[..|o.evidence|] == o.evidence;
        }
      }
      found := false;
    }

    method UpdateMode()
      requires tx.Some?
      modifies this`tx
      ensures State() == S.UpdateMode(old(State()))
    {
      if tx.value.state == FaultLockout { return; }
      var aux := AuxFaultCount();
      if aux == 0 {
        if tx.value.mode != Manual { tx := Some(tx.value.(mode := Normal)); }
      } else if aux == 1 {
        if tx.value.mode != Manual { tx := Some(tx.value.(mode := Degraded)); }
      } else {
        tx := Some(tx.value.(mode := Manual));
      }
    }

    method TryAuthorizeEntry()
      requires tx.Some?
      modifies this`tx, this`marks
      ensures State() == TryAuthorize(cfg, old(State()))
    {
      if tx.value.identity != IdAccepted || tx.value.state == FaultLockout { return; }
      var p := tx.value.pos;
      if !p.safetyClear { return; }
      if p.frontPresent || p.rearPresent { return; }
      if lastScale.None? { return; }
      var r := lastScale.value.reading;
      if r.health != Healthy || r.fault != "" || r.overload {
        Lockout();
        return;
      }
      if !r.stable || Abs(r.kg) > cfg.emptyMax { return; }
      marks := marks + [Authorized(tx.value, lastScale)];
      Transition(EntryAuthorized);
      tx := Some(tx.value.(outputs := tx.value.outputs.(entryGreen := true)));
      tx := Some(tx.value.(outputs := tx.value.outputs.(entryOpen := true)));
    }

    method WithdrawEntry()
      requires tx.Some?
      modifies this`tx
      ensures tx == Some(old(tx).value.(outputs := EntryOff(old(tx).value.outputs)))
    {
      tx := Some(tx.value.(outputs := tx.value.outputs.(entryGreen := false)));
      tx := Some(tx.value.(outputs := tx.value.outputs.(entryOpen := false)));
    }

    method EvaluatePosition()
      requires tx.Some?
      modifies this`tx
      ensures State() == S.EvaluatePosition(old(State()))
    {
      var p := tx.value.pos;
      var front, rear := FrontSensor in faults, RearSensor in faults;
      if !front && !rear && p.frontPresent && p.rearPresent {
        tx := Some(tx.value.(position := PosAccepted));
        WithdrawEntry();
        return;
      }
      if front && rear {
        tx := Some(tx.value.(position := PosManual));
        tx := Some(tx.value.(mode := Manual));
        return;
      }
      var bridged := false;
      if front && p.rearPresent { bridged := HasOverride(FrontSensor, PositionConfirmed); }
      if !bridged && rear && p.frontPresent { bridged := HasOverride(RearSensor, PositionConfirmed); }
      if bridged {
        tx := Some(tx.value.(position := PosAccepted));
        tx := Some(tx.value.(mode := Degraded));
        WithdrawEntry();
      } else {
        tx := Some(tx.value.(position := PosPending));
      }
    }

    method TryReadyToWeigh()
      requires tx.Some?
      modifies this`tx, this`marks
      ensures State() == TryReady(old(State()))
    {
      if tx.value.state == FaultLockout || tx.value.state == Completed { return; }
      if tx.value.identity != IdAccepted || tx.value.position != PosAccepted { return; }
      if lastScale.None? { return; }
      var r := lastScale.value.reading;
      if r.health != Healthy || r.fault != "" || r.overload {
        Lockout();
        return;
      }
      if BeforeWeigh(tx.value.state) {
        marks := marks + [Ready(tx.value, lastScale)];
        Transition(ReadyToWeigh);
      }
    }

    method GoManual()
      requires tx.Some?
      modifies this`tx
      ensures State() == S.GoManual(old(State()))
    {
      tx := Some(tx.value.(identity := IdManual));
      tx := Some(tx.value.(mode := Manual));
    }

    method Accept(reason: IdentityReason)
      requires tx.Some?
      modifies this`tx
      ensures tx == Some(old(tx).value.(identity := IdAccepted, reason := reason))
    {
      tx := Some(tx.value.(identity := IdAccepted));
      tx := Some(tx.value.(reason := reason));
    }

    method EvaluateIdentity(o: Outside, ghost env: Env)
      requires tx.Some? && env.registry == o.registry && env.u == u
      modifies this`tx, this`marks
      ensures State() == S.EvaluateIdentity(cfg, env, old(State()))
    {
      hide TryAuthorize, VehicleKey;
      if tx.value.state == FaultLockout || tx.value.state == Completed { return; }
      var tagBad := Rfid in faults || tx.value.tag.health == Faulty || tx.value.tag.health == Disconnected;
      var plateBad := Lpr in faults || tx.value.plate.health == Faulty || tx.value.plate.health == Disconnected;
      if !tagBad && tx.value.tag.tag != "" && !plateBad && tx.value.plate.plate != "" {
        CrossCheck(o, env);
        return;
      }
      if tagBad && !plateBad && tx.value.plate.plate != "" {
        var bridged := HasOverride(Rfid, IdentityConfirmed);
        if bridged {
          Accept(TagDegraded);
          tx := Some(tx.value.(mode := Degraded));
          TryAuthorizeEntry();
          return;
        }
      }
      if plateBad && !tagBad && tx.value.tag.tag != "" {
        var bridged := HasOverride(Lpr, IdentityConfirmed);
        if bridged {
          TagAlone(o, env);
          return;
        }
      }
      if tagBad && plateBad { GoManual(); }
    }

    method CrossCheck(o: Outside, ghost env: Env)
      requires tx.Some? && env.registry == o.registry && env.u == u
      modifies this`tx, this`marks
      ensures State() == S.CrossCheck(cfg, env, old(State()))
    {
      hide TryAuthorize;
      if o.registry.NoRegistry? {
        GoManual();
        return;
      }
      var found := o.registry.resolve(tx.value.tag.tag);
      if !found.Mapped? {
        GoManual();
        return;
      }
      var expected := NormalizeVehicleKey(u, found.plate);
      var read := NormalizeVehicleKey(u, tx.value.plate.plate);
      if expected != read {
        tx := Some(tx.value.(identity := IdMismatch));
        tx := Some(tx.value.(reason := PlateExpected(found.plate, tx.value.plate.plate)));
        Transition(IdentityMismatch);
        WithdrawEntry();
        return;
      }
      Accept(ChannelsMatch);
      if tx.value.state == IdentityMismatch { Transition(Identifying); }
      TryAuthorizeEntry();
    }

    method TagAlone(o: Outside, ghost env: Env)
      requires tx.Some? && env.registry == o.registry
      modifies this`tx, this`marks
      ensures State() == S.TagAlone(cfg, env, old(State()))
    {
      hide TryAuthorize;
      if o.registry.NoRegistry? {
        GoManual();
        return;
      }
      var found := o.registry.resolve(tx.value.tag.tag);
      if !found.Mapped? {
        GoManual();
        return;
      }
      tx := Some(tx.value.(plate := PlateRead(found.plate, "", Faulty, tx.value.tag.observed)));
      Accept(PlateDegraded);
      tx := Some(tx.value.(mode := Degraded));
      TryAuthorizeEntry();
    }

    method AnyLocking() returns (found: bool)
      ensures found <==> exists d :: d in faults && faults[d].Locking()
    {
      var rest := faults.Keys;
      while rest != {}
        invariant rest <= faults.Keys
        invariant forall d :: d in faults && d !in rest ==> !faults[d].Locking()
        decreases |rest|
      {
        var d :| d in rest;
        rest := rest - {d};
        if faults[d].device == Scale || faults[d].critical || !faults[d].overridable { return true; }
      }
      found := false;
    }

    method Start(o: Outside, observed: Time, ghost env: Env)
      requires env.now == o.now && env.suffix == o.suffix
      modifies this
      ensures State() == S.Start(env, old(State()), observed)
    {
      hide S.UpdateMode;
      tx := Some(Tx("tx-" + o.suffix, WhenSeen(observed, o.now), Approach, Normal,
                    TagRead("", NoHealth, 0), PlateRead("", "", NoHealth, 0), IdPending, NoReason,
                    PosPending, Position(false, false, false, false, false, false, false, false, false, 0), None,
                    None, 0, map[], [], "", None, false, None, ALL_OFF));
      marks, frames := [], [];
      SyncFaultSlice();
      var locking := AnyLocking();
      if locking {
        Lockout();
        return;
      }
      UpdateMode();
      Transition(Identifying);
    }

    /** A ticket for the accepted weight; the truck is released only once the store has taken it. */
    method CommitTicket(ghost set_: Settings, o: Outside, a: Audited, ghost env: Env) returns (ok: bool, ghost offered: Option<PassTicket>)
      requires tx.Some? && Serves(set_, o, env)
      modifies this, Beyond()
      ensures Out(State(), ok, offered) == S.CommitTicket(cfg, env, old(State()), a)
      ensures Passed(set_, o, ok, offered)
    {
      hide T.Commit;
      if tickets == null {
        Lockout();
        return false, None;
      }
      var t := tx.value;
      var ticket := PassTicket("ticket-" + o.suffix, cfg.station, t.id, t.plate.plate, t.tag.tag,
                               Weight(a.reading.kg, a.reading.observed, a.rawRef), t.mode, t.overrides, o.now);
      offered := Some(ticket);
      assert env.sink.commit(ticket) == T.Commit(set_, o, tickets.State(), tickets.Shop(), ticket).ok;
      ok := tickets.Commit(ticket, o, set_);
      marks := marks + [Offered(ticket, ok)];
      if !ok {
        Lockout();
        return;
      }
      tx := Some(tx.value.(accepted := Some(ticket.weight)));
      tx := Some(tx.value.(ticketID := ticket.id));
      tx := Some(tx.value.(committedAt := Some(o.now)));
      Transition(LocalCommitted);
      Transition(ExitAuthorized);
      WithdrawEntry();
      tx := Some(tx.value.(outputs := tx.value.outputs.(exitGreen := true)));
      tx := Some(tx.value.(outputs := tx.value.outputs.(exitOpen := true)));
      tx := Some(tx.value.(outputs := tx.value.outputs.(buzzer := true)));
    }

    /** What the bridge and the store did with the ticket offered, if any. */
    twostate predicate Passed(set_: Settings, o: Outside, ok: bool, offered: Option<PassTicket>)
      reads Beyond()
    {
      tickets != null ==>
        if offered.None? then tickets.State() == old(tickets.State()) && tickets.Shop() == old(tickets.Shop())
        else Committed(tickets.State(), tickets.Shop(), ok) == T.Commit(set_, o, old(tickets.State()), old(tickets.Shop()), offered.value)
    }

    // ---------- handlers ----------

    method ObservePosition(o: Outside, p: Position, ghost env: Env)
      requires env.now == o.now && env.suffix == o.suffix
      modifies this
      ensures State() == OnPosition(cfg, env, old(State()), p)
    {
      hide S.Start, TryAuthorize, TryReady, S.EvaluatePosition;
      if tx.None? && p.entryPresent { Start(o, p.observed, env); }
      if tx.None? { return; }
      tx := Some(tx.value.(pos := p));
      if tx.value.state == Completed || tx.value.state == FaultLockout { return; }
      if tx.value.identity == IdAccepted && (tx.value.state == Approach || tx.value.state == Identifying) { TryAuthorizeEntry(); }
      Settle(p);
      Leave(o, p, env);
    }

    method Settle(p: Position)
      requires tx.Some?
      modifies this`tx, this`marks
      ensures State() == OnDeck(old(State()), p)
    {
      hide TryReady, S.EvaluatePosition;
      if p.frontPresent && tx.value.state == EntryAuthorized { Transition(Entering); }
      if p.frontPresent || p.rearPresent {
        if tx.value.state == Entering || tx.value.state == EntryAuthorized { Transition(Positioning); }
        EvaluatePosition();
        if tx.value.position == PosAccepted { TryReadyToWeigh(); }
      }
    }

    method Leave(o: Outside, p: Position, ghost env: Env)
      requires tx.Some? && env.now == o.now
      modifies this`tx
      ensures State() == Leaving(env, old(State()), p)
    {
      hide S.HasOverride;
      if tx.value.state == ExitAuthorized && p.exitPresent {
        tx := Some(tx.value.(exitSeen := true));
        Transition(Exiting);
      }
      if tx.value.state == Exiting && tx.value.exitSeen && !p.exitPresent {
        var clear := p.safetyClear;
        if !clear { clear := HasOverride(ExitSensor, ExitClearConfirmed); }
        if clear {
          tx := Some(tx.value.(completedAt := Some(WhenSeen(p.observed, o.now))));
          Transition(Completed);
          tx := Some(tx.value.(outputs := ALL_OFF));
        }
      }
    }

    method ObserveRFID(o: Outside, tag: TagRead, ghost env: Env)
      requires env.registry == o.registry && env.u == u
      modifies this
      ensures Out(State(), true, None) == Step(cfg, env, old(State()), SeeTag(tag))
    {
      hide S.EvaluateIdentity;
      if tx.None? || !Belongs(tx.value, tag.observed) { return; }
      tx := Some(tx.value.(tag := tag));
      EvaluateIdentity(o, env);
    }

    method ObserveLPR(o: Outside, plate: PlateRead, ghost env: Env)
      requires env.registry == o.registry && env.u == u
      modifies this
      ensures Out(State(), true, None) == Step(cfg, env, old(State()), SeePlate(plate))
    {
      hide S.EvaluateIdentity;
      if tx.None? || !Belongs(tx.value, plate.observed) { return; }
      tx := Some(tx.value.(plate := plate));
      EvaluateIdentity(o, env);
    }

    method ObserveScale(ghost set_: Settings, o: Outside, a: Audited, ghost env: Env) returns (ok: bool, ghost offered: Option<PassTicket>)
      requires Serves(set_, o, env)
      modifies this, Beyond()
      ensures Out(State(), ok, offered) == OnScale(cfg, env, old(State()), a)
      ensures Passed(set_, o, ok, offered)
    {
      hide S.WeighAndCommit, EnterWeighing, T.Commit, Serves;
      offered := None;
      if a.rawRef.seq_ == 0 || a.rawRef.hash == "" { return false, None; }
      Keep(a);
      var r := a.reading;
      if r.health != Healthy || r.fault != "" || r.overload {
        BlameScale(r);
        return true, None;
      }
      faults := faults - {Scale};
      if tx.Some? && tx.value.state != FaultLockout { SyncFaultSlice(); }
      if tx.None? || tx.value.state == Completed || tx.value.state == FaultLockout { return true, None; }
      BeginWeighing();
      ok, offered := WeighOn(set_, o, a, env);
    }

    method Keep(a: Audited)
      modifies this`lastScale, this`tx
      ensures State() == Receive(old(State()), a)
    {
      lastScale := Some(a);
      if tx.Some? { tx := Some(tx.value.(latestScale := Some(a))); }
    }

    method BlameScale(r: Reading)
      modifies this`faults, this`tx
      ensures State() == LockOnScale(old(State()), r)
    {
      faults := faults[Scale := ScaleFault(r)];
      if tx.Some? {
        SyncFaultSlice();
        Lockout();
      }
    }

    method BeginWeighing()
      requires tx.Some?
      modifies this`tx, this`marks
      ensures State() == EnterWeighing(cfg, old(State()))
    {
      hide TryAuthorize, TryReady;
      if tx.value.identity == IdAccepted && (tx.value.state == Approach || tx.value.state == Identifying) { TryAuthorizeEntry(); }
      TryReadyToWeigh();
      if tx.value.state == ReadyToWeigh { Transition(Weighing); }
    }

    method WeighOn(ghost set_: Settings, o: Outside, a: Audited, ghost env: Env) returns (ok: bool, ghost offered: Option<PassTicket>)
      requires tx.Some? && Serves(set_, o, env)
      modifies this, Beyond()
      ensures Out(State(), ok, offered) == WeighAndCommit(cfg, env, old(State()), a)
      ensures Passed(set_, o, ok, offered)
    {
      hide S.CommitTicket, T.Commit;
      var r := a.reading;
      if tx.value.state != Weighing { return true, None; }
      frames := frames + [a];
      if !r.stable || r.kg < cfg.minStable {
        tx := Some(tx.value.(confirmations := 0));
        stableBase := None;
        return true, None;
      }
      if stableBase.None? || Abs(stableBase.value.reading.kg - r.kg) > cfg.tolerance {
        stableBase := Some(a);
        tx := Some(tx.value.(confirmations := 1));
      } else {
        tx := Some(tx.value.(confirmations := tx.value.confirmations + 1));
        stableBase := Some(a);
      }
      if tx.value.confirmations < cfg.confirmations { return true, None; }
      ok, offered := CommitTicket(set_, o, a, env);
    }

    method ObserveFault(o: Outside, f: Fault, ghost env: Env)
      requires env.registry == o.registry && env.u == u
      modifies this
      ensures State() == OnFault(cfg, env, old(State()), f)
    {
      hide S.EvaluateIdentity, S.EvaluatePosition, S.UpdateMode;
      faults := faults[f.device := f];
      if tx.None? { return; }
      SyncFaultSlice();
      if f.device == Scale || f.critical || !f.overridable {
        Lockout();
        return;
      }
      UpdateMode();
      if f.device == FrontSensor || f.device == RearSensor { EvaluatePosition(); }
      EvaluateIdentity(o, env);
    }

    method ClearFault(o: Outside, d: Device, ghost env: Env)
      requires env.registry == o.registry && env.u == u
      modifies this
      ensures State() == OnClear(cfg, env, old(State()), d)
    {
      hide S.EvaluateIdentity, S.EvaluatePosition;
      faults := faults - {d};
      if tx.None? { return; }
      SyncFaultSlice();
      if tx.value.state != FaultLockout { UpdateMode(); }
      if d == FrontSensor || d == RearSensor { EvaluatePosition(); }
      EvaluateIdentity(o, env);
    }

    method AuthorizeOverride(o: Outside, g: Override, ghost env: Env) returns (ok: bool)
      requires env.now == o.now && env.registry == o.registry && env.u == u
      modifies this
      ensures Out(State(), ok, None) == OnGrant(cfg, env, old(State()), g)
    {
      hide S.EvaluateIdentity, S.EvaluatePosition, S.UpdateMode, TryReady;
      if tx.None? { return false; }
      if g.txID != tx.value.id || !ValidOverride(g) { return false; }
      if g.device !in faults || !faults[g.device].overridable || faults[g.device].critical { return false; }
      var aux := AuxFaultCount();
      if Rank(g.authorizedAs) < Rank(RequiredRole(g.device, aux)) { return false; }
      var active := Active(g.device);
      if active { return false; }
      var dated := g;
      if dated.authorizedAt == 0 { dated := dated.(authorizedAt := o.now); }
      tx := Some(tx.value.(overrides := tx.value.overrides + [dated]));
      UpdateMode();
      if g.device == FrontSensor || g.device == RearSensor {
        EvaluatePosition();
        TryReadyToWeigh();
      }
      EvaluateIdentity(o, env);
      ok := true;
    }

    method Active(d: Device) returns (found: bool)
      requires tx.Some?
      ensures found == ActiveOverride(tx.value, d)
    {
      var overrides := tx.value.overrides;
      for i := 0 to |overrides|
        invariant forall k :: 0 <= k < i ==> !(overrides[k].device == d && overrides[k].expiredAt.None?)
      {
        if overrides[i].device == d && overrides[i].expiredAt.None? { return true; }
      }
      found := false;
    }

    method ResetCompleted() returns (ok: bool)
      modifies this
      ensures Out(State(), ok, None) == OnReset(old(State()))
    {
      if tx.None? { return true; }
      if tx.value.state != Completed { return false; }
      tx := None;
      stableBase := None;
      ok := true;
    }
  }
}
