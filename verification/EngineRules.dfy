/**
 The engine's rules, told from the facts alone: what locks a transaction out, what its mode is, who may grant an override, what identity
 is decided, which observations are too old, and what a new transaction starts from.
 */
module EngineRules {
  import opened Domain
  import opened Pairing
  import opened EngineSpec
  import opened EngineProofs
  import opened EngineTheorems
  import opened EngineReentry
  import opened EngineLaws
  import opened EngineExits

  // ---------- locking out ----------

  /** Everything is off and only a restart helps. */
  predicate LockedOut(s: Eng) {
    && s.tx.Some? && s.tx.value.state == FaultLockout && s.tx.value.mode == Lockout
    && s.tx.value.outputs == Outputs(false, false, false, false, false)
  }

  /** A fault of the scale, a critical one, or one that is not overridable. */
  predicate Bars(f: Fault) {
    f.device == Scale || f.critical || !f.overridable
  }

  /** The last frame of the scale, if there is one, was sound. */
  predicate SoundSoFar(s: Eng) {
    s.lastScale.Some? ==>
      && s.lastScale.value.reading.health == Healthy && s.lastScale.value.reading.fault == "" && !s.lastScale.value.reading.overload
  }

  /** The transaction runs, over a sound scale. */
  predicate Unlocked(s: Eng) {
    s.tx.Some? && s.tx.value.state != FaultLockout && s.tx.value.state != Completed && SoundSoFar(s)
  }

  lemma HelpersNeverLock(cfg: Config, s: Eng)
    requires Unlocked(s)
    ensures Unlocked(UpdateMode(s)) && Unlocked(EvaluatePosition(s)) && Unlocked(SyncFaults(s))
  {
    hide EvaluatePosition;
    PositionShape(s);
  }

  lemma TryNeverLocks(cfg: Config, s: Eng, t: Tx)
    requires Unlocked(s) && (t.state == s.tx.value.state || t.state == Identifying || t.state == IdentityMismatch)
    ensures Unlocked(TryAuthorize(cfg, Set(s, t))) && Unlocked(Set(s, t))
  {
  }

  lemma IdentityNeverLocks(cfg: Config, env: Env, s: Eng)
    requires Unlocked(s)
    ensures Unlocked(EvaluateIdentity(cfg, env, s))
  {
    hide TryAuthorize, VehicleKey, HasOverride, TagBad, PlateBad, Unlocked;
    RunsOn(s);
    var t := s.tx.value;
    var look := Resolve(env, t.tag.tag);
    TryNeverLocks(cfg, s, t.(identity := IdManual, mode := Manual));
    TryNeverLocks(cfg, s, t.(identity := IdAccepted, reason := ChannelsMatch,
                             state := if t.state == IdentityMismatch then Identifying else t.state));
    TryNeverLocks(cfg, s, t.(identity := IdAccepted, reason := TagDegraded, mode := Degraded));
    if look.Mapped? {
      TryNeverLocks(cfg, s, t.(identity := IdMismatch, reason := PlateExpected(look.plate, t.plate.plate),
                               state := IdentityMismatch, outputs := EntryOff(t.outputs)));
      TryNeverLocks(cfg, s, t.(plate := PlateRead(look.plate, "", Faulty, t.tag.observed),
                               identity := IdAccepted, reason := PlateDegraded, mode := Degraded));
    }
  }

  lemma RunsOn(s: Eng)
    requires Unlocked(s)
    ensures s.tx.Some?
  {
  }

  /** A fault that is set stands in the engine and on the transaction; and over a sound scale it locks a running transaction out exactly
      when it is of the scale, critical, or not overridable. */
  lemma FaultLocksExactly(cfg: Config, env: Env, s: Eng, f: Fault)
    requires Unlocked(s)
    ensures var r := Step(cfg, env, s, SetFault(f)).eng;
            && (Bars(f) ==> LockedOut(r))
            && (!Bars(f) ==> r.tx.Some? && r.tx.value.state != FaultLockout)
  {
    hide EvaluateIdentity, EvaluatePosition, UpdateMode;
    if !Bars(f) {
      var s1 := SyncFaults(s.(faults := s.faults[f.device := f]));
      HelpersNeverLock(cfg, s.(faults := s.faults[f.device := f]));
      HelpersNeverLock(cfg, s1);
      HelpersNeverLock(cfg, UpdateMode(s1));
      IdentityNeverLocks(cfg, env, UpdateMode(s1));
      IdentityNeverLocks(cfg, env, EvaluatePosition(UpdateMode(s1)));
    }
  }

  /** Whatever state the transaction is in, such a fault leaves it locked out. */
  lemma BarringFaultLocks(cfg: Config, env: Env, s: Eng, f: Fault)
    requires s.tx.Some? && Bars(f)
    ensures var r := Step(cfg, env, s, SetFault(f)).eng;
            LockedOut(r) && r.faults == s.faults[f.device := f] && r.tx.value.faults == r.faults && r.tx.value.id == s.tx.value.id
  {
  }

  /** A frame that names a raw record but is unhealthy, faulted or overloaded locks the transaction out and leaves a critical scale fault
      that no override can bridge; without a transaction the fault is left for the next. */
  lemma UnsoundFrameLocks(cfg: Config, env: Env, s: Eng, a: Audited)
    requires a.rawRef.seq_ != 0 && a.rawRef.hash != ""
    requires a.reading.health != Healthy || a.reading.fault != "" || a.reading.overload
    ensures var r := Step(cfg, env, s, SeeScale(a)).eng;
            && (s.tx.Some? ==> LockedOut(r) && r.tx.value.latestScale == Some(a) && r.tx.value.faults == r.faults)
            && (s.tx.None? ==> r.tx.None?)
            && r.lastScale == Some(a) && r.faults.Keys == s.faults.Keys + {Scale}
            && r.faults[Scale].critical && !r.faults[Scale].overridable && r.faults[Scale].device == Scale
            && r.faults[Scale].health == a.reading.health
            && forall d :: d in s.faults && d != Scale ==> r.faults[d] == s.faults[d]
  {
    hide EnterWeighing, WeighAndCommit, LockOnScale, LockedOut;
    LockedOnScale(Receive(s, a), a.reading);
  }

  lemma LockedOnScale(s: Eng, r: Reading)
    ensures var e := LockOnScale(s, r);
            && (s.tx.Some? ==> LockedOut(e) && e.tx.value.latestScale == s.tx.value.latestScale && e.tx.value.faults == e.faults)
            && (s.tx.None? ==> e.tx.None?)
            && e.lastScale == s.lastScale && e.faults == s.faults[Scale := e.faults[Scale]]
            && e.faults[Scale].critical && !e.faults[Scale].overridable && e.faults[Scale].device == Scale
            && e.faults[Scale].health == r.health
  {
  }

  /** A frame without a raw record is refused and changes nothing; a sound one becomes the last frame and ends a scale fault. */
  lemma FrameIsReceived(cfg: Config, env: Env, s: Eng, a: Audited)
    ensures var r := Step(cfg, env, s, SeeScale(a));
            && (a.rawRef.seq_ == 0 || a.rawRef.hash == "" ==> r == Out(s, false, None))
            && (a.rawRef.seq_ != 0 && a.rawRef.hash != "" && a.reading.Sound() ==>
                 && r.eng.lastScale == Some(a) && Scale !in r.eng.faults && r.eng.faults == s.faults - {Scale}
                 && (s.tx.Some? ==> r.eng.tx.Some? && r.eng.tx.value.latestScale == Some(a)))
  {
    hide OnScale;
    if a.rawRef.Present() && a.reading.Sound() && s.tx.Some? && Live(s) { LiveReceives(cfg, env, s, a); } else { DeafReceives(cfg, env, s, a); }
  }

  lemma LiveReceives(cfg: Config, env: Env, s: Eng, a: Audited)
    requires a.rawRef.Present() && a.reading.Sound() && s.tx.Some? && Live(s)
    ensures var r := OnScale(cfg, env, s, a).eng;
            r.lastScale == Some(a) && r.faults == s.faults - {Scale} && r.tx.Some? && r.tx.value.latestScale == Some(a)
  {
    hide Approaching, TryReady, Weigh, WeighAndCommit;
    HeardCases(cfg, env, s, a);
    var f := Heard(s, a);
    ReceptionStays(cfg, f);
    ReceptionStays(cfg, Approaching(cfg, f));
    WeighingReceives(cfg, env, EnterWeighing(cfg, f), a);
  }

  /** The last frame and the faults are what they were. */
  predicate SameFrame(s: Eng, r: Eng) {
    && s.tx.Some? && r.tx.Some? && r.lastScale == s.lastScale && r.faults == s.faults && r.tx.value.latestScale == s.tx.value.latestScale
  }

  lemma ReceptionStays(cfg: Config, s: Eng)
    requires s.tx.Some?
    ensures SameFrame(s, Approaching(cfg, s)) && SameFrame(s, TryReady(s))
  {
  }

  lemma WeighingReceives(cfg: Config, env: Env, s: Eng, a: Audited)
    requires s.tx.Some?
    ensures SameFrame(s, WeighAndCommit(cfg, env, s, a).eng)
  {
  }

  lemma DeafReceives(cfg: Config, env: Env, s: Eng, a: Audited)
    requires !(a.rawRef.Present() && a.reading.Sound() && s.tx.Some? && Live(s))
    ensures var r := OnScale(cfg, env, s, a);
            && (!a.rawRef.Present() ==> r == Out(s, false, None))
            && (a.rawRef.Present() && a.reading.Sound() ==>
                 && r.eng.lastScale == Some(a) && r.eng.faults == s.faults - {Scale}
                 && (s.tx.Some? ==> r.eng.tx.Some? && r.eng.tx.value.latestScale == Some(a)))
  {
    hide EnterWeighing, WeighAndCommit;
  }

  /** A ticket the store refuses, like one there is no store for, locks the transaction out: nothing is accepted and nothing opens. */
  lemma RefusalLocks(cfg: Config, env: Env, s: Eng, a: Audited)
    requires s.tx.Some? && s.tx.value.state == Weighing && cfg.confirmations > 0
    requires Weigh(cfg, s, a).tx.value.confirmations >= cfg.confirmations
    ensures var r := WeighAndCommit(cfg, env, s, a);
            && (env.sink.NoStore? ==> LockedOut(r.eng) && !r.ok && r.offered.None?)
            && (env.sink.Store? ==> r.offered.Some? && r.ok == env.sink.commit(r.offered.value))
            && (!r.ok ==> LockedOut(r.eng) && r.eng.tx.value.accepted == s.tx.value.accepted && r.eng.tx.value.ticketID == s.tx.value.ticketID)
            && (r.ok ==> var t, k := r.eng.tx.value, r.offered.value;
                         && t.state == ExitAuthorized && t.outputs == Outputs(false, true, true, false, true)
                         && t.accepted == Some(k.weight) && t.ticketID == k.id && t.committedAt == Some(env.now))
  {
  }

  /** A truck judged over an unsound last frame is locked out: on its approach, when nothing else keeps it from being let in, and on the
      deck, when nothing else keeps it from being weighed. */
  lemma UnsoundLastFrameLocks(cfg: Config, env: Env, s: Eng, p: Position)
    requires Going(s) && s.tx.value.state != FaultLockout && s.tx.value.identity == IdAccepted && s.lastScale.Some? && !SoundSoFar(s)
    requires var onDeck := s.(tx := Some(s.tx.value.(pos := p)));
             || ((s.tx.value.state == Approach || s.tx.value.state == Identifying) && p.safetyClear && !p.frontPresent && !p.rearPresent)
             || ((p.frontPresent || p.rearPresent) && OnTheDeck(onDeck))
    ensures LockedOut(OnPosition(cfg, env, s, p))
  {
    hide EvaluatePosition, Leaving, OnTheDeck;
    var s1 := Set(s, s.tx.value.(pos := p));
    var a := Approaching(cfg, s1);
    if p.frontPresent || p.rearPresent {
      assert a == s1;
      var s2 := if p.frontPresent && s1.tx.value.state == EntryAuthorized then Set(s1, s1.tx.value.(state := Entering)) else s1;
      var s3 := if s2.tx.value.state == Entering || s2.tx.value.state == EntryAuthorized then Set(s2, s2.tx.value.(state := Positioning)) else s2;
      SameDeckIsOn(s1, s3);
      PositionAcceptedExactly(s3);
      PositionShape(s3);
    }
    LockedLeaves(env, OnDeck(a, p), p);
  }

  lemma SameDeckIsOn(s: Eng, r: Eng)
    requires s.tx.Some? && r.tx.Some? && r.faults == s.faults && r.tx.value.pos == s.tx.value.pos
    requires r.tx.value.overrides == s.tx.value.overrides
    ensures OnTheDeck(s) == OnTheDeck(r)
  {
  }

  lemma LockedLeaves(env: Env, s: Eng, p: Position)
    requires LockedOut(s)
    ensures Leaving(env, s, p) == s
  {
  }

  // ---------- mode and grants ----------

  /** The faults that could be bridged: of something else than the scale, overridable, and not critical. */
  function Bridgeable(faults: map<Device, Fault>): set<Device> {
    set d | d in faults && d != Scale && faults[d].overridable && !faults[d].critical
  }

  /** The mode follows how many faults could be bridged: manual from two on, and then for good; degraded for one and normal for none.
      A locked transaction keeps its mode. */
  lemma ModeExactly(s: Eng)
    requires s.tx.Some?
    ensures var t, r, n := s.tx.value, UpdateMode(s), |Bridgeable(s.faults)|;
            && r == s.(tx := Some(t.(mode := r.tx.value.mode)))
            && (t.state == FaultLockout ==> r.tx.value.mode == t.mode)
            && (t.state != FaultLockout && n >= 2 ==> r.tx.value.mode == Manual)
            && (t.state != FaultLockout && n < 2 && t.mode == Manual ==> r.tx.value.mode == Manual)
            && (t.state != FaultLockout && n == 1 && t.mode != Manual ==> r.tx.value.mode == Degraded)
            && (t.state != FaultLockout && n == 0 && t.mode != Manual ==> r.tx.value.mode == Normal)
  {
    assert AuxDevices(s.faults) == Bridgeable(s.faults);
  }

  /** Who may bridge a fault of this device while n faults could be bridged. */
  predicate MayAuthorize(role: Role, d: Device, n: nat) {
    role == Supervisor || (role == Operator && d != EntryBarrier && d != ExitBarrier && d != PhysicalSafety && n < 2)
  }

  /** An override is granted exactly when it is for the running transaction and complete, for a device other than the scale whose fault
      can be bridged and is not bridged yet, and its author may: a supervisor always, an operator neither where people could be
      hurt nor when more than one fault could be bridged. Granted, it is added to the overrides, dated now if it came without a date. */
  lemma GrantExactly(cfg: Config, env: Env, s: Eng, o: Override)
    ensures Step(cfg, env, s, Grant(o)).ok <==>
              && s.tx.Some? && o.txID == s.tx.value.id && o.txID != "" && o.reason != "" && o.authorizedBy != "" && |o.evidence| > 0
              && o.device in Bridgeable(s.faults)
              && MayAuthorize(o.authorizedAs, o.device, |Bridgeable(s.faults)|)
              && !exists i :: 0 <= i < |s.tx.value.overrides| && s.tx.value.overrides[i].device == o.device
                              && s.tx.value.overrides[i].expiredAt.None?
    ensures !Step(cfg, env, s, Grant(o)).ok ==> Step(cfg, env, s, Grant(o)).eng == s
  {
    hide EvaluateIdentity, EvaluatePosition, UpdateMode, TryReady;
    assert AuxDevices(s.faults) == Bridgeable(s.faults);
  }

  // ---------- identity ----------

  /** The channel is down: a fault of it stands, or its last reading came from a faulty or disconnected reader. */
  predicate TagDown(s: Eng)
    requires s.tx.Some?
  {
    Rfid in s.faults || s.tx.value.tag.health in {Faulty, Disconnected}
  }

  predicate PlateDown(s: Eng)
    requires s.tx.Some?
  {
    Lpr in s.faults || s.tx.value.plate.health in {Faulty, Disconnected}
  }

  /** An override that still stands confirms the identity in place of this reader. */
  predicate Vouched(t: Tx, reader: Device) {
    exists i :: 0 <= i < |t.overrides| && t.overrides[i].device == reader && t.overrides[i].expiredAt.None?
                && IdentityConfirmed in t.overrides[i].evidence
  }

  datatype Judgement = Judgement(identity: Identity, reason: IdentityReason, plate: PlateRead)

  function JudgementOf(t: Tx): Judgement {
    Judgement(t.identity, t.reason, t.plate)
  }

  /** Nobody answers for the plate of this tag. */
  predicate Unmapped(env: Env, tag: string) {
    env.registry.NoRegistry? || !env.registry.resolve(tag).Mapped?
  }

  lemma TryKeepsJudgement(cfg: Config, s: Eng)
    requires s.tx.Some?
    ensures var r := TryAuthorize(cfg, s); r.tx.Some? && JudgementOf(r.tx.value) == JudgementOf(s.tx.value)
    ensures var r := TryAuthorize(cfg, s); r.tx.value.mode == s.tx.value.mode || LockedOut(r)
  {
  }

  /** With both channels up and read, the plate the registry has for the tag decides: the same plate is accepted, another one is a mismatch
      that shuts the entry, and if the registry has none it goes to a person. */
  lemma BothChannelsDecide(cfg: Config, env: Env, s: Eng)
    requires Going(s) && s.tx.value.state != FaultLockout
    requires !TagDown(s) && !PlateDown(s) && s.tx.value.tag.tag != "" && s.tx.value.plate.plate != ""
    ensures var t, r := s.tx.value, EvaluateIdentity(cfg, env, s).tx.value;
            if Unmapped(env, t.tag.tag) then JudgementOf(r) == Judgement(IdManual, t.reason, t.plate) && r.mode == Manual
            else
              var plate := env.registry.resolve(t.tag.tag).plate;
              if VehicleKey(env.u, plate) == VehicleKey(env.u, t.plate.plate)
              then JudgementOf(r) == Judgement(IdAccepted, ChannelsMatch, t.plate)
              else
                && JudgementOf(r) == Judgement(IdMismatch, PlateExpected(plate, t.plate.plate), t.plate)
                && r.state == IdentityMismatch && !r.outputs.entryGreen && !r.outputs.entryOpen
  {
    hide TryAuthorize, VehicleKey;
    var t := s.tx.value;
    TryKeepsJudgement(cfg, Set(s, t.(identity := IdAccepted, reason := ChannelsMatch,
                                     state := if t.state == IdentityMismatch then Identifying else t.state)));
  }

  /** With one channel down, identity is accepted only on the other channel and a confirmed override for the one that is down, in degraded
      mode; the plate is then the one read, or the one the registry has for the tag. With both down it goes to a person. In every
      other case nothing is decided. */
  lemma DegradedIdentity(cfg: Config, env: Env, s: Eng)
    requires Going(s) && s.tx.value.state != FaultLockout
    requires TagDown(s) || PlateDown(s) || s.tx.value.tag.tag == "" || s.tx.value.plate.plate == ""
    ensures var t, e := s.tx.value, EvaluateIdentity(cfg, env, s); var r := e.tx.value;
            if TagDown(s) && PlateDown(s) then JudgementOf(r) == Judgement(IdManual, t.reason, t.plate) && r.mode == Manual
            else if TagDown(s) && t.plate.plate != "" && Vouched(t, Rfid) then
              JudgementOf(r) == Judgement(IdAccepted, TagDegraded, t.plate) && (r.mode == Degraded || LockedOut(e))
            else if PlateDown(s) && t.tag.tag != "" && Vouched(t, Lpr) then
              if Unmapped(env, t.tag.tag) then JudgementOf(r) == Judgement(IdManual, t.reason, t.plate) && r.mode == Manual
              else
                && JudgementOf(r) == Judgement(IdAccepted, PlateDegraded,
                                               PlateRead(env.registry.resolve(t.tag.tag).plate, "", Faulty, t.tag.observed))
                && (r.mode == Degraded || LockedOut(e))
            else e == s
  {
    hide TryAuthorize, VehicleKey, HasOverride;
    var t := s.tx.value;
    VouchedIsOverride(t);
    var look := Resolve(env, t.tag.tag);
    TryKeepsJudgement(cfg, Set(s, t.(identity := IdAccepted, reason := TagDegraded, mode := Degraded)));
    if look.Mapped? {
      TryKeepsJudgement(cfg, Set(s, t.(plate := PlateRead(look.plate, "", Faulty, t.tag.observed),
                                       identity := IdAccepted, reason := PlateDegraded, mode := Degraded)));
    }
  }

  lemma VouchedIsOverride(t: Tx)
    ensures Vouched(t, Rfid) == HasOverride(t, Rfid, IdentityConfirmed) && Vouched(t, Lpr) == HasOverride(t, Lpr, IdentityConfirmed)
  {
  }

  // ---------- observations ----------

  /** A reading from before the transaction started is ignored; any other replaces the one before it. */
  lemma ReadingsAreTaken(cfg: Config, env: Env, s: Eng, tag: TagRead, plate: PlateRead)
    requires s.tx.Some?
    ensures var t, r := s.tx.value, Step(cfg, env, s, SeeTag(tag)).eng;
            if tag.observed != 0 && tag.observed < t.startedAt then r == s else r.tx.Some? && r.tx.value.tag == tag
    ensures var t, r := s.tx.value, Step(cfg, env, s, SeePlate(plate)).eng;
            if plate.observed != 0 && plate.observed < t.startedAt then r == s
            else r.tx.Some? && (r.tx.value.plate == plate || (r.tx.value.reason == PlateDegraded && PlateDown(Set(s, t.(plate := plate)))))
  {
    hide TryAuthorize, VehicleKey, HasOverride, EvaluateIdentity;
    var t := s.tx.value;
    IdentityReads(cfg, env, Set(s, t.(tag := tag)));
    IdentityReads(cfg, env, Set(s, t.(plate := plate)));
  }

  /** From s to r the tag's reading stays, and the plate's too, unless the registry stands in for the camera. */
  predicate Reads(s: Eng, r: Eng) {
    && s.tx.Some? && r.tx.Some? && r.tx.value.tag == s.tx.value.tag
    && (r.tx.value.plate == s.tx.value.plate || (r.tx.value.reason == PlateDegraded && PlateDown(s)))
  }

  lemma TryReads(cfg: Config, s: Eng, t: Tx)
    requires s.tx.Some? && t.tag == s.tx.value.tag
    requires t.plate == s.tx.value.plate || (t.reason == PlateDegraded && PlateDown(s))
    ensures Reads(s, TryAuthorize(cfg, Set(s, t))) && Reads(s, Set(s, t))
  {
  }

  lemma IdentityReads(cfg: Config, env: Env, s: Eng)
    requires s.tx.Some?
    ensures Reads(s, EvaluateIdentity(cfg, env, s))
  {
    hide TryAuthorize, VehicleKey, HasOverride, TagBad, Reads;
    var t := s.tx.value;
    var look := Resolve(env, t.tag.tag);
    TryReads(cfg, s, t);
    TryReads(cfg, s, t.(identity := IdManual, mode := Manual));
    TryReads(cfg, s, t.(identity := IdAccepted, reason := ChannelsMatch,
                        state := if t.state == IdentityMismatch then Identifying else t.state));
    TryReads(cfg, s, t.(identity := IdAccepted, reason := TagDegraded, mode := Degraded));
    if look.Mapped? {
      TryReads(cfg, s, t.(identity := IdMismatch, reason := PlateExpected(look.plate, t.plate.plate),
                          state := IdentityMismatch, outputs := EntryOff(t.outputs)));
      if PlateDown(s) {
        TryReads(cfg, s, t.(plate := PlateRead(look.plate, "", Faulty, t.tag.observed),
                            identity := IdAccepted, reason := PlateDegraded, mode := Degraded));
      }
    }
    assert Set(s, t) == s;
  }

  // ---------- the beginning and the end ----------

  /** A transaction starts exactly with a truck at the entry; over a standing fault that bars it starts locked out, otherwise it begins to
      identify the truck, with nothing decided, nothing read, nothing open and every standing fault on it. */
  lemma StartsExactly(cfg: Config, env: Env, s: Eng, p: Position)
    requires s.tx.None?
    ensures !p.entryPresent ==> OnPosition(cfg, env, s, p) == s
    ensures p.entryPresent ==>
              var r := OnPosition(cfg, env, s, p);
              && r.tx.Some? && r.faults == s.faults && r.marks == [] && r.frames == []
              && var t, barred := r.tx.value, exists d :: d in s.faults && Bars(s.faults[d]);
                 && t.id == "tx-" + env.suffix && t.startedAt == (if p.observed == 0 then env.now else p.observed)
                 && t.faults == s.faults && t.pos == p && t.identity == IdPending && t.overrides == []
                 && t.accepted.None? && t.ticketID == "" && t.tag.tag == "" && t.plate.plate == "" && t.outputs == ALL_OFF
                 && (barred ==> LockedOut(r)) && (!barred ==> t.state == Identifying)
                 && (!barred && !(p.frontPresent || p.rearPresent) ==>
                      t.mode == match |Bridgeable(s.faults)| case 0 => Normal case 1 => Degraded case _ => Manual)
  {
    hide AuxDevices, OnDeck, Leaving, Start, Approaching;
    if p.entryPresent {
      var s0 := Start(env, s, p.observed);
      FreshStart(env, s, p.observed);
      var s1 := Set(s0, s0.tx.value.(pos := p));
      if s1.tx.value.state != FaultLockout {
        NotYetApproaching(cfg, s1);
        FreshOnDeck(s1, p);
        FreshLeaves(env, OnDeck(s1, p), p);
      }
    }
  }

  lemma NotYetApproaching(cfg: Config, s: Eng)
    requires s.tx.Some? && s.tx.value.identity == IdPending
    ensures Approaching(cfg, s) == s
  {
  }

  lemma FreshStart(env: Env, s: Eng, observed: Time)
    ensures var r := Start(env, s, observed); var t := r.tx.value;
            && r == s.(tx := r.tx, marks := [], frames := [])
            && t.id == "tx-" + env.suffix && t.startedAt == (if observed == 0 then env.now else observed)
            && t.faults == s.faults && t.identity == IdPending && t.overrides == [] && t.position == PosPending
            && t.accepted.None? && t.ticketID == "" && t.tag.tag == "" && t.plate.plate == "" && t.outputs == ALL_OFF
            && (if exists d :: d in s.faults && Bars(s.faults[d]) then LockedOut(r)
                else t.state == Identifying && t.mode == match |Bridgeable(s.faults)| case 0 => Normal case 1 => Degraded case _ => Manual)
  {
    hide AuxDevices, Bridgeable;
    BarsIsLocking(s.faults);
    AuxIsBridgeable(s.faults);
  }

  lemma AuxIsBridgeable(faults: map<Device, Fault>)
    ensures AuxDevices(faults) == Bridgeable(faults)
  {
  }

  lemma BarsIsLocking(faults: map<Device, Fault>)
    ensures (exists d :: d in faults && Bars(faults[d])) <==> exists d :: d in faults && faults[d].Locking()
  {
    if d :| d in faults && Bars(faults[d]) { assert faults[d].Locking(); }
    if d :| d in faults && faults[d].Locking() { assert Bars(faults[d]); }
  }

  /** On the deck before anything is decided, a new transaction has its position judged and nothing else. */
  lemma FreshOnDeck(s: Eng, p: Position)
    requires s.tx.Some? && s.tx.value.state == Identifying && s.tx.value.identity == IdPending && s.tx.value.outputs == ALL_OFF
    ensures var t, r := s.tx.value, OnDeck(s, p);
            && r == Set(s, r.tx.value) && r.tx.value == t.(position := r.tx.value.position, mode := r.tx.value.mode)
            && (!p.frontPresent && !p.rearPresent ==> r == s)
  {
    hide EvaluatePosition;
    PositionShape(s);
  }

  lemma FreshLeaves(env: Env, s: Eng, p: Position)
    requires s.tx.Some? && s.tx.value.state == Identifying
    ensures Leaving(env, s, p) == s
  {
  }

  /** A reset drops a completed transaction, keeps faults and the last frame, and is refused while a transaction runs. */
  lemma ResetExactly(cfg: Config, env: Env, s: Eng)
    ensures var r := Step(cfg, env, s, Reset);
            && (r.ok <==> s.tx.None? || s.tx.value.state == Completed)
            && (s.tx.Some? && s.tx.value.state == Completed ==> r.eng.tx.None? && r.eng.stableBase.None?)
            && (s.tx.None? || s.tx.value.state != Completed ==> r.eng == s)
            && r.eng.faults == s.faults && r.eng.lastScale == s.lastScale && r.offered.None?
  {
  }

  /** Settings that are given stand; the others are filled in. */
  lemma SettingsExactly(c: Config)
    ensures var r := Configured(c);
            && (c.station != "" ==> r.station == c.station)
            && r.emptyMax == (if c.emptyMax > 0 then c.emptyMax else 500) && r.minStable == (if c.minStable > 0 then c.minStable else 500)
            && r.confirmations == (if c.confirmations > 0 then c.confirmations else 2)
            && r.tolerance == (if c.tolerance >= 0 then c.tolerance else 0)
  {
  }
}
