/**
 What becomes of the reconciler's reports: each one locks the running transaction out and stands in the engine when the poll is over.
 */
module SiteReports {
  import opened Domain
  import opened EngineSpec
  import opened EngineProofs
  import opened EngineTheorems
  import opened EngineExits
  import opened TwoPass
  import opened TwoPassProofs
  import opened RemoteOutputs
  import opened RemoteOutputsProofs
  import opened Control
  import opened ControlProofs
  import opened Reports
  import opened Systems
  import F = FaultLogs

  // ---------- one action and one device ----------

  /** The fault that stands for this device in the engine. */
  function FaultAt(s: Eng, d: Domain.Device): Option<Fault> {
    if d in s.faults then Some(s.faults[d]) else None
  }

  /** What stands for a device after the last word about it. */
  function AfterWord(word: Option<Event>, before: Option<Fault>): Option<Fault> {
    match word
    case Some(SetFault(f)) => Some(f)
    case Some(ClearFault(d)) => None
    case _ => before
  }

  function WordOf(e: WorldEvent, d: Domain.Device): Option<Event> {
    if e.Device? && Touches(e.e, d) then Some(e.e) else None
  }

  lemma EngineFault(cfg: Config, env: Env, s: Eng, e: Event, d: Domain.Device)
    requires d != Scale && e != Reset
    ensures FaultAt(Step(cfg, env, s, e).eng, d) == AfterWord(if Touches(e, d) then Some(e) else None, FaultAt(s, d))
  {
    hide Step;
    if s.tx.Some? { F.StepFaults(cfg, env, s, e); } else { IdleFault(cfg, env, s, e, d); }
  }

  lemma IdleFault(cfg: Config, env: Env, s: Eng, e: Event, d: Domain.Device)
    requires s.tx.None? && d != Scale
    ensures FaultAt(Step(cfg, env, s, e).eng, d) == AfterWord(if Touches(e, d) then Some(e) else None, FaultAt(s, d))
  {
    hide OnPosition;
    if e.SeePosition? {
      if e.p.entryPresent { F.StartFaults(cfg, env, s, e.p); } else { F.NobodyStarts(cfg, env, s, e.p); }
    }
  }

  /** Whoever acts, only setting and clearing a device's fault changes it. */
  lemma ActFault(set_: Settings, o: Outside, w: World, e: WorldEvent, d: Domain.Device)
    requires d != Scale
    ensures FaultAt(Act(set_, o, w, e).eng, d) == AfterWord(WordOf(e, d), FaultAt(w.eng, d))
  {
    hide Act, Step, Directed, Cleared, EnvFor;
    match e
    case Sensors(p) =>
      F.SensorsEngine(set_, o, w, p);
      F.FacingEngine(w, p);
      var f := F.Facing(w, p);
      EngineFault(set_.cfg, EnvFor(set_, o, f), f.eng, SeePosition(Logical(f, p)), d);
    case Device(e') =>
      F.DeviceEngine(set_, o, w, e');
      if e' != Reset { EngineFault(set_.cfg, EnvFor(set_, o, w), w.eng, e', d); }
    case _ => F.RestEngine(set_, o, w, e);
  }

  // ---------- others, and the calls of a poll ----------

  /** The action could end the transaction, or sets or clears a fault of this device. */
  predicate Meddles(e: WorldEvent, d: Domain.Device) {
    e.Sensors? || e.OperatorReset? || (e.Device? && Touches(e.e, d))
  }

  predicate Aloof(script: seq<Cue>, d: Domain.Device) {
    forall i :: 0 <= i < |script| ==> !Meddles(script[i].e, d)
  }

  /** During the poll nobody else reports a position, resets, or sets or clears a fault of this device. */
  ghost predicate Undisturbed(h: Happening, d: Domain.Device) {
    h.Polled? && Aloof(h.lull, d) && forall n: nat :: Aloof(h.ears(n).others, d)
  }

  ghost predicate AllAloof(ears: nat -> Ear, d: Domain.Device) {
    forall n: nat :: Aloof(ears(n).others, d)
  }

  lemma {:induction false} PlayFault(set_: Settings, w: World, script: seq<Cue>, d: Domain.Device)
    requires d != Scale && Aloof(script, d)
    ensures FaultAt(Play(set_, w, script).eng, d) == FaultAt(w.eng, d)
  {
    hide Act, FaultAt;
    if script != [] {
      var n := |script| - 1;
      PlayFault(set_, w, script[..n], d);
      ActFault(set_, script[n].o, Play(set_, w, script[..n]), script[n].e, d);
    }
  }

  /** Undisturbed, what stands for a device after the calls is what the last word about it says. */
  lemma {:induction false} HearFault(set_: Settings, w: World, calls: seq<Event>, ears: nat -> Ear, d: Domain.Device)
    requires d != Scale && AllAloof(ears, d)
    ensures FaultAt(Hear(set_, w, calls, ears).eng, d) == AfterWord(LastWord(calls, d), FaultAt(w.eng, d))
  {
    hide Act, FaultAt;
    if calls != [] {
      var n := |calls| - 1;
      HearFault(set_, w, calls[..n], ears, d);
      var h := Hear(set_, w, calls[..n], ears);
      PlayFault(set_, h, ears(n).others, d);
      ActFault(set_, ears(n).o, Play(set_, h, ears(n).others), AsAction(calls[n]), d);
    }
  }

  // ---------- the transaction meanwhile ----------

  lemma ActKeepsTx(set_: Settings, o: Outside, w: World, e: WorldEvent)
    requires w.eng.tx.Some? && !e.Sensors? && !e.OperatorReset?
    ensures var r := Act(set_, o, w, e).eng; r.tx.Some? && (Going(w.eng) ==> Going(r))
  {
    hide Act, Step, EnvFor;
    match e
    case Device(d) =>
      F.DeviceEngine(set_, o, w, d);
      if d != Reset && !d.SeePosition? {
        F.StepFaults(set_.cfg, EnvFor(set_, o, w), w.eng, d);
        if Going(w.eng) { OnlyPositionsComplete(set_.cfg, EnvFor(set_, o, w), w.eng, d); }
      }
    case _ => RestKeepsTx(set_, o, w, e);
  }

  lemma RestKeepsTx(set_: Settings, o: Outside, w: World, e: WorldEvent)
    requires e.CameraShot? || e.Elsewhere?
    ensures Act(set_, o, w, e).eng == w.eng
  {
    hide Interleaving.Do;
  }

  /** A position does not end a running transaction at once. */
  lemma SensorsKeepTx(set_: Settings, o: Outside, w: World, p: Position)
    requires Going(w.eng)
    ensures Act(set_, o, w, Sensors(p)).eng.tx.Some?
  {
    hide Act, Step, EnvFor;
    F.SensorsEngine(set_, o, w, p);
    var f := F.Facing(w, p);
    F.StepFaults(set_.cfg, EnvFor(set_, o, f), f.eng, SeePosition(Logical(f, p)));
  }

  lemma {:induction false} PlayKeepsTx(set_: Settings, w: World, script: seq<Cue>, d: Domain.Device)
    requires w.eng.tx.Some? && Aloof(script, d)
    ensures var r := Play(set_, w, script).eng; r.tx.Some? && (Going(w.eng) ==> Going(r))
  {
    hide Act, Going;
    if script != [] {
      var n := |script| - 1;
      PlayKeepsTx(set_, w, script[..n], d);
      ActKeepsTx(set_, script[n].o, Play(set_, w, script[..n]), script[n].e);
    }
  }

  lemma {:induction false} HearKeepsTx(set_: Settings, w: World, calls: seq<Event>, ears: nat -> Ear, d: Domain.Device)
    requires w.eng.tx.Some? && AllAloof(ears, d) && Plain(calls)
    ensures var r := Hear(set_, w, calls, ears).eng; r.tx.Some? && (Going(w.eng) ==> Going(r))
  {
    hide Act, Going;
    if calls != [] {
      var n := |calls| - 1;
      HearKeepsTx(set_, w, calls[..n], ears, d);
      var h := Hear(set_, w, calls[..n], ears);
      PlayKeepsTx(set_, h, ears(n).others, d);
      ActKeepsTx(set_, ears(n).o, Play(set_, h, ears(n).others), AsAction(calls[n]));
    }
  }

  // ---------- a report locks out ----------

  /** A critical fault reported while there is a transaction locks it out. */
  lemma ReportLocks(set_: Settings, o: Outside, w: World, e: Event, d: Domain.Device)
    requires w.eng.tx.Some? && Blocks(e, d)
    ensures Locked(Act(set_, o, w, AsAction(e)).eng)
  {
    hide Act, EnvFor;
    F.DeviceEngine(set_, o, w, e);
  }

  lemma {:induction false} HearLocks(set_: Settings, w: World, calls: seq<Event>, ears: nat -> Ear, d: Domain.Device)
    requires WorldInv(set_, w) && w.eng.tx.Some? && AllAloof(ears, d) && Plain(calls) && Condemned(LastWord(calls, d), d)
    ensures Locked(Hear(set_, w, calls, ears).eng)
  {
    hide Act, WorldInv, Locked, Play;
    var n := |calls| - 1;
    var h := Hear(set_, w, calls[..n], ears);
    HearKeeps(set_, w, calls[..n], ears);
    EveryWorldInv(set_, h, ears(n).others);
    if Touches(calls[n], d) {
      HearKeepsTx(set_, w, calls[..n], ears, d);
      PlayKeepsTx(set_, h, ears(n).others, d);
      ReportLocks(set_, ears(n).o, Play(set_, h, ears(n).others), calls[n], d);
    } else {
      HearLocks(set_, w, calls[..n], ears, d);
      LockoutBlanksOutputs(set_, h, ears(n).others);
      LockedOne(set_, ears(n).o, Play(set_, h, ears(n).others), AsAction(calls[n]));
    }
  }

  /** The calls of a poll up to its snapshot: only the last may be a position. */
  lemma BeginHeard(set_: Settings, hw: Hw, s: Site, h: Happening, d: Domain.Device)
    requires h.Polled? && WorldInv(set_, s.world) && Going(s.world.eng) && Undisturbed(h, d) && d != Scale
    ensures var said := Said(s.rig, Begin(hw, s.ctl, s.rig, h.inputs).rig); var w1 := AtSnapshot(set_, hw, s, h);
            && w1.eng.tx.Some?
            && FaultAt(w1.eng, d) == AfterWord(LastWord(said, d), FaultAt(s.world.eng, d))
            && (Condemned(LastWord(said, d), d) ==> Locked(w1.eng))
  {
    hide Act, WorldInv, Locked, Play, Hear, Begin, Going, FaultAt, LastWord, Failed, Plain;
    var b := Begin(hw, s.ctl, s.rig, h.inputs);
    var said := Said(s.rig, b.rig);
    BeginSpeaks(hw, s.ctl, s.rig, h.inputs);
    var heard := Hear(set_, s.world, said, h.ears);
    HearKeeps(set_, s.world, said, h.ears);
    HearFault(set_, s.world, said, h.ears, d);
    PlayFault(set_, heard, h.lull, d);
    GoingIsThere(s.world.eng);
    if b.ok {
      PositionHeard(set_, s.world, said, h.ears, d);
    } else {
      HearKeepsTx(set_, s.world, said, h.ears, d);
      if Condemned(LastWord(said, d), d) { HearLocks(set_, s.world, said, h.ears, d); }
    }
    PlayKeepsTx(set_, heard, h.lull, d);
    if Condemned(LastWord(said, d), d) { LockoutBlanksOutputs(set_, heard, h.lull); }
  }

  lemma GoingIsThere(s: Eng)
    requires Going(s)
    ensures s.tx.Some?
  {
  }

  lemma PositionHeard(set_: Settings, w: World, said: seq<Event>, ears: nat -> Ear, d: Domain.Device)
    requires WorldInv(set_, w) && Going(w.eng) && AllAloof(ears, d)
    requires said != [] && said[|said| - 1].SeePosition? && Plain(said[..|said| - 1])
    ensures Hear(set_, w, said, ears).eng.tx.Some?
    ensures Condemned(LastWord(said, d), d) ==> Locked(Hear(set_, w, said, ears).eng)
  {
    hide Act, WorldInv, Locked, Play, Going, Plain;
    var n := |said| - 1;
    var h := Hear(set_, w, said[..n], ears);
    GoingIsThere(w.eng);
    HearKeepsTx(set_, w, said[..n], ears, d);
    PlayKeepsTx(set_, h, ears(n).others, d);
    SensorsKeepTx(set_, ears(n).o, Play(set_, h, ears(n).others), said[n].p);
    if Condemned(LastWord(said, d), d) {
      HearLocks(set_, w, said[..n], ears, d);
      HearKeeps(set_, w, said[..n], ears);
      EveryWorldInv(set_, h, ears(n).others);
      LockoutBlanksOutputs(set_, h, ears(n).others);
      LockedOne(set_, ears(n).o, Play(set_, h, ears(n).others), AsAction(said[n]));
    }
  }

  /** The transaction is locked out, and a critical fault of this device, which no override can bridge, stands in the engine. */
  predicate LockedOutBy(s: Eng, d: Domain.Device) {
    Locked(s) && d in s.faults && s.faults[d].device == d && s.faults[d].critical && !s.faults[d].overridable
  }

  /** The rest of the poll has only plain calls to make. */
  lemma RestIsPlain(set_: Settings, hw: Hw, t: Timing, s: Site, h: Happening)
    requires h.Polled?
    ensures var b, w := Begin(hw, s.ctl, s.rig, h.inputs), PollOf(set_, hw, t, s, h); Plain(Said(b.rig, w.rig)) && Later(b.rig, w.rig)
    ensures Later(s.rig, Begin(hw, s.ctl, s.rig, h.inputs).rig)
  {
    hide Begin, Finish, AtSnapshot, Desired, LastWord, Failed;
    var b := Begin(hw, s.ctl, s.rig, h.inputs);
    BeginSpeaks(hw, s.ctl, s.rig, h.inputs);
    if b.ok && h.seen { FinishSpeaks(hw, t, b, Desired(AtSnapshot(set_, hw, s, h)), h.inputs.value, h.now); }
  }

  /** The last word of a whole poll about a device. */
  ghost function PollWord(set_: Settings, hw: Hw, t: Timing, s: Site, h: Happening, d: Domain.Device): Option<Event>
    requires h.Polled?
  {
    var b, w := Begin(hw, s.ctl, s.rig, h.inputs), PollOf(set_, hw, t, s, h);
    var later := LastWord(Said(b.rig, w.rig), d);
    if later.Some? then later else LastWord(Said(s.rig, b.rig), d)
  }

  lemma RestHeard(set_: Settings, w: World, said: seq<Event>, ears: nat -> Ear, d: Domain.Device)
    requires WorldInv(set_, w) && w.eng.tx.Some? && AllAloof(ears, d) && Plain(said) && d != Scale
    ensures var r, word := Hear(set_, w, said, ears).eng, LastWord(said, d);
            FaultAt(r, d) == AfterWord(word, FaultAt(w.eng, d)) && (Condemned(word, d) || Locked(w.eng) ==> Locked(r))
  {
    hide WorldInv, Hear, Locked, LastWord, Plain, FaultAt;
    HearFault(set_, w, said, ears, d);
    if Condemned(LastWord(said, d), d) { HearLocks(set_, w, said, ears, d); } else if Locked(w.eng) { LockedHear(set_, w, said, ears); }
  }

  lemma CondemnedStands(s: Eng, d: Domain.Device, word: Option<Event>, before: Option<Fault>)
    requires FaultAt(s, d) == AfterWord(word, before) && Condemned(word, d) && Locked(s)
    ensures LockedOutBy(s, d)
  {
  }

  /** Undisturbed, what a poll last says of a device is what stands for it afterwards; and if that is a critical fault, a transaction
      that was running is locked out. */
  lemma PollDecides(set_: Settings, hw: Hw, t: Timing, s: Site, h: Happening, d: Domain.Device)
    requires Distinct(hw.m) && SiteInv(set_, hw, s) && h.Polled? && Going(s.world.eng) && Undisturbed(h, d) && d != Scale
    ensures var r, word := Happen(set_, hw, t, s, h).world.eng, PollWord(set_, hw, t, s, h, d);
            FaultAt(r, d) == AfterWord(word, FaultAt(s.world.eng, d)) && (Condemned(word, d) ==> Locked(r) && LockedOutBy(r, d))
  {
    hide WorldInv, ControlInv, Hear, AtSnapshot, PollOnce, PollOf, Desired, Begin, Distinct, Locked, LastWord, Going, Plain, FaultAt,
         LockedOutBy;
    var b, w := Begin(hw, s.ctl, s.rig, h.inputs), PollOf(set_, hw, t, s, h);
    BeginHeard(set_, hw, s, h, d);
    RestIsPlain(set_, hw, t, s, h);
    SnapshotKeeps(set_, hw, s, h);
    var n := |Said(s.rig, b.rig)|;
    var later: nat -> Ear := i requires 0 <= i => h.ears(i + n);
    var w1, said := AtSnapshot(set_, hw, s, h), Said(b.rig, w.rig);
    assert Happen(set_, hw, t, s, h).world == Hear(set_, w1, said, later);
    RestHeard(set_, w1, said, later, d);
    var word := PollWord(set_, hw, t, s, h, d);
    if Condemned(word, d) { CondemnedStands(Hear(set_, w1, said, later).eng, d, word, FaultAt(s.world.eng, d)); }
  }

  // ---------- cause by cause ----------

  /** When its inputs cannot be read a poll locks the running transaction out over the remote input and output device. */
  lemma UnreadableInputsLockOut(set_: Settings, hw: Hw, t: Timing, s: Site, h: Happening)
    requires Distinct(hw.m) && SiteInv(set_, hw, s) && h.Polled? && Going(s.world.eng) && Undisturbed(h, RemoteIO)
    requires h.inputs.None?
    ensures var r := Happen(set_, hw, t, s, h); LockedOutBy(r.world.eng, RemoteIO) && !r.ctl.safe
  {
    hide WorldInv, ControlInv, Hear, AtSnapshot, Desired, Begin, Finish, Distinct, LastWord, Going, LockedOutBy, Failed, Plain, Undisturbed;
    var b := Begin(hw, s.ctl, s.rig, h.inputs);
    BeginSpeaks(hw, s.ctl, s.rig, h.inputs);
    assert LastWord(Said(b.rig, b.rig), RemoteIO).None? by { SilentWord(b.rig, RemoteIO); }
    PollDecides(set_, hw, t, s, h, RemoteIO);
  }

  lemma SilentWord(a: Rig, d: Domain.Device)
    ensures LastWord(Said(a, a), d).None? && Done(a, a) == []
  {
  }

  /** When a write of the poll is not acknowledged, be it of establishing a safe state, of a light, of a barrier or of the buzzer, or when
      the poll fails for any other reason of its own, the running transaction is locked out over the remote input and output device. */
  lemma FailedPollLocksOut(set_: Settings, hw: Hw, t: Timing, s: Site, h: Happening)
    requires Distinct(hw.m) && SiteInv(set_, hw, s) && h.Polled? && Going(s.world.eng) && Undisturbed(h, RemoteIO)
    requires Failed(Done(s.rig, PollOf(set_, hw, t, s, h).rig)) || (h.seen && !PollOf(set_, hw, t, s, h).ok)
    ensures var r := Happen(set_, hw, t, s, h); LockedOutBy(r.world.eng, RemoteIO) && !r.ctl.safe
  {
    hide WorldInv, ControlInv, Hear, AtSnapshot, Desired, Begin, Finish, Distinct, LastWord, Going, LockedOutBy, Failed, Plain, Undisturbed;
    var b, w := Begin(hw, s.ctl, s.rig, h.inputs), PollOf(set_, hw, t, s, h);
    BeginSpeaks(hw, s.ctl, s.rig, h.inputs);
    SilentWord(b.rig, RemoteIO);
    NotFailedYet(b.rig);
    if b.ok && h.seen { FinishSpeaks(hw, t, b, Desired(AtSnapshot(set_, hw, s, h)), h.inputs.value, h.now); }
    DoneInTwo(s.rig, b.rig, w.rig);
    PollDecides(set_, hw, t, s, h, RemoteIO);
  }

  lemma DoneInTwo(a: Rig, b: Rig, c: Rig)
    requires Later(a, b) && Later(b, c)
    ensures Done(a, c) == Done(a, b) + Done(b, c)
    ensures Failed(Done(a, c)) <==> Failed(Done(a, b)) || Failed(Done(b, c))
  {
    var x, y := Done(a, b), Done(b, c);
    assert Done(a, c) == x + y;
    if i :| 0 <= i < |x| && x[i].Wrote? && !x[i].acked { assert (x + y)[i] == x[i]; }
    if i :| 0 <= i < |y| && y[i].Wrote? && !y[i].acked { assert (x + y)[|x| + i] == y[i]; }
  }

  /** When any append of the poll's audit fails the running transaction is locked out over the audit store. */
  lemma FailedAppendLocksOut(set_: Settings, hw: Hw, t: Timing, s: Site, h: Happening)
    requires Distinct(hw.m) && SiteInv(set_, hw, s) && h.Polled? && Going(s.world.eng) && Undisturbed(h, AuditStore)
    requires Unrecorded in Done(s.rig, PollOf(set_, hw, t, s, h).rig)
    ensures LockedOutBy(Happen(set_, hw, t, s, h).world.eng, AuditStore)
  {
    hide WorldInv, ControlInv, Hear, AtSnapshot, Desired, Begin, Finish, Distinct, LastWord, Going, LockedOutBy, Failed, Plain, Undisturbed;
    var b, w := Begin(hw, s.ctl, s.rig, h.inputs), PollOf(set_, hw, t, s, h);
    BeginSpeaks(hw, s.ctl, s.rig, h.inputs);
    SilentWord(b.rig, AuditStore);
    if b.ok && h.seen { FinishSpeaks(hw, t, b, Desired(AtSnapshot(set_, hw, s, h)), h.inputs.value, h.now); }
    DoneInTwo(s.rig, b.rig, w.rig);
    PollDecides(set_, hw, t, s, h, AuditStore);
  }

  /** When a barrier reports open and closed at once, and the outputs were in force, the running transaction is locked out over that
      very barrier. */
  lemma ContradictionLocksOut(set_: Settings, hw: Hw, t: Timing, s: Site, h: Happening)
    requires Distinct(hw.m) && SiteInv(set_, hw, s) && h.Polled? && Going(s.world.eng) && h.seen
    requires Begin(hw, s.ctl, s.rig, h.inputs).ok
    ensures var p, r := h.inputs.value, Happen(set_, hw, t, s, h).world.eng;
            && (p.entryOpen && p.entryClosed && Undisturbed(h, EntryBarrier) ==> LockedOutBy(r, EntryBarrier))
            && (p.exitOpen && p.exitClosed && Undisturbed(h, ExitBarrier) ==> LockedOutBy(r, ExitBarrier))
  {
    hide WorldInv, ControlInv, Hear, AtSnapshot, Desired, Begin, Finish, Distinct, LastWord, Going, LockedOutBy, Failed, Plain, Undisturbed;
    var b := Begin(hw, s.ctl, s.rig, h.inputs);
    BeginSpeaks(hw, s.ctl, s.rig, h.inputs);
    FinishSpeaks(hw, t, b, Desired(AtSnapshot(set_, hw, s, h)), h.inputs.value, h.now);
    if Undisturbed(h, EntryBarrier) { PollDecides(set_, hw, t, s, h, EntryBarrier); }
    if Undisturbed(h, ExitBarrier) { PollDecides(set_, hw, t, s, h, ExitBarrier); }
  }

  // ---------- timeouts ----------

  /** The polls of a course, with what was desired at each. */
  ghost function PollsOf(set_: Settings, hw: Hw, t: Timing, s: Site, hs: seq<Happening>): seq<Poll> {
    if hs == [] then []
    else
      var n := |hs| - 1;
      var init := PollsOf(set_, hw, t, s, hs[..n]);
      if hs[n].Polled?
      then init + [Poll(hs[n].inputs, hs[n].seen, Desired(AtSnapshot(set_, hw, Course(set_, hw, t, s, hs[..n]), hs[n])), hs[n].now)]
      else init
  }

  /** Until a restart, a course moves the controller and the coils as its polls do. */
  lemma {:induction false} CourseIsItsPolls(set_: Settings, hw: Hw, t: Timing, s: Site, hs: seq<Happening>)
    requires forall i :: 0 <= i < |hs| ==> hs[i] != Restart
    ensures var r, w := Course(set_, hw, t, s, hs), PollAll(hw, t, s.ctl, s.rig, PollsOf(set_, hw, t, s, hs));
            r.ctl == w.ctl && r.rig == w.rig
  {
    hide AtSnapshot, Desired, PollOnce, Begin, Hear, Act;
    if hs != [] {
      var n := |hs| - 1;
      CourseIsItsPolls(set_, hw, t, s, hs[..n]);
      var polls := PollsOf(set_, hw, t, s, hs);
      if hs[n].Polled? { assert polls[..|polls| - 1] == PollsOf(set_, hw, t, s, hs[..n]); }
    }
  }

  /** What the last of a run of polls that hold a fresh request says of the side's barrier, if the run has not seen it open and more
      than the timeout has passed: that it is condemned. */
  lemma TimeoutSpeaks(hw: Hw, t: Timing, c: Ctl, r: Rig, polls: seq<Poll>, side: Side)
    requires Distinct(hw.m) && ControlInv(hw, c, r, false) && (c.safe ==> !OpenOf(c.applied, side))
    requires polls != [] && AllNil(hw, t, c, r, polls) && forall i :: 0 <= i < |polls| ==> Holding(polls[i], side)
    requires !Confirmation(polls, side) && polls[|polls| - 1].now - polls[0].now > t.timeout
    ensures var n := |polls| - 1; var w := PollAll(hw, t, c, r, polls[..n]);
            && var b := Begin(hw, w.ctl, w.rig, polls[n].inputs);
            && b.ok && polls[n].seen
            && var d := if side == EntrySide then EntryBarrier else ExitBarrier;
               Condemned(LastWord(Said(b.rig, PollAll(hw, t, c, r, polls).rig), d), d)
  {
    hide Begin, Finish, Distinct, LastWord, Agrees, RigOK;
    var n := |polls| - 1;
    var w, poll := PollAll(hw, t, c, r, polls[..n]), polls[n];
    AllNilInit(hw, t, c, r, polls);
    TimerRuns(hw, t, c, r, polls, side);
    SafeAppliedMeansKnown(hw, t, c, r, polls[..n]);
    BeginKeeps(hw, w.ctl, w.rig, poll.inputs, false);
    ConfirmationLast(polls, side);
    ConfirmationSpeaks(hw, t, Begin(hw, w.ctl, w.rig, poll.inputs), poll.desired, poll.inputs.value, poll.now);
  }

  /** End to end: in any course without a restart whose polls hold a fresh request to open a barrier, and return without an error, the
      poll at which more than the timeout has passed without open feedback locks the running transaction out over that very
      barrier, and a critical fault of it, which no override can bridge, stands in the engine. */
  lemma TimeoutLocksOut(set_: Settings, hw: Hw, t: Timing, s: Site, hs: seq<Happening>, side: Side)
    requires Distinct(hw.m) && SiteInv(set_, hw, s) && (s.ctl.safe ==> !OpenOf(s.ctl.applied, side))
    requires hs != [] && hs[|hs| - 1].Polled? && forall i :: 0 <= i < |hs| ==> hs[i] != Restart
    requires var polls := PollsOf(set_, hw, t, s, hs);
             && AllNil(hw, t, s.ctl, s.rig, polls) && (forall i :: 0 <= i < |polls| ==> Holding(polls[i], side))
             && !Confirmation(polls, side) && polls[|polls| - 1].now - polls[0].now > t.timeout
    requires Going(Course(set_, hw, t, s, hs[..|hs| - 1]).world.eng)
    requires Undisturbed(hs[|hs| - 1], if side == EntrySide then EntryBarrier else ExitBarrier)
    ensures LockedOutBy(Course(set_, hw, t, s, hs).world.eng, if side == EntrySide then EntryBarrier else ExitBarrier)
  {
    hide AtSnapshot, Desired, PollOnce, Begin, Happen, WorldInv, Distinct, Hear, LastWord, Going, LockedOutBy, Undisturbed, AllNil, Agrees,
         RigOK, Confirmation, Holding;
    var n := |hs| - 1;
    var init, polls := Course(set_, hw, t, s, hs[..n]), PollsOf(set_, hw, t, s, hs);
    var d := if side == EntrySide then EntryBarrier else ExitBarrier;
    SiteIsInterlocked(set_, hw, t, s, hs[..n]);
    CourseIsItsPolls(set_, hw, t, s, hs[..n]);
    assert polls[..|polls| - 1] == PollsOf(set_, hw, t, s, hs[..n]);
    TimeoutSpeaks(hw, t, s.ctl, s.rig, polls, side);
    PollDecides(set_, hw, t, init, hs[n], d);
  }

  lemma FeedbackSpeaks(set_: Settings, hw: Hw, t: Timing, s: Site, h: Happening)
    requires Distinct(hw.m) && SiteInv(set_, hw, s) && h.Polled? && PollOf(set_, hw, t, s, h).ok && !Contradictory(h.inputs.value)
    ensures var p, o := h.inputs.value, Desired(AtSnapshot(set_, hw, s, h));
            && (o.entryOpen && p.entryOpen ==> PollWord(set_, hw, t, s, h, EntryBarrier) == Some(ClearFault(EntryBarrier)))
            && (o.exitOpen && p.exitOpen ==> PollWord(set_, hw, t, s, h, ExitBarrier) == Some(ClearFault(ExitBarrier)))
  {
    hide WorldInv, Hear, AtSnapshot, Desired, Begin, Finish, Distinct, LastWord, Failed, Plain, Agrees, RigOK;
    var b := Begin(hw, s.ctl, s.rig, h.inputs);
    BeginSpeaks(hw, s.ctl, s.rig, h.inputs);
    BeginKeeps(hw, s.ctl, s.rig, h.inputs, true);
    ConfirmationSpeaks(hw, t, b, Desired(AtSnapshot(set_, hw, s, h)), h.inputs.value, h.now);
  }

  /** A barrier that is requested open and reports open, in a poll that returns without an error, has no fault standing afterwards. */
  lemma FeedbackClears(set_: Settings, hw: Hw, t: Timing, s: Site, h: Happening)
    requires Distinct(hw.m) && SiteInv(set_, hw, s) && h.Polled? && Going(s.world.eng) && PollOf(set_, hw, t, s, h).ok
    requires !Contradictory(h.inputs.value)
    ensures var p, o, r := h.inputs.value, Desired(AtSnapshot(set_, hw, s, h)), Happen(set_, hw, t, s, h).world.eng;
            && (o.entryOpen && p.entryOpen && Undisturbed(h, EntryBarrier) ==> EntryBarrier !in r.faults)
            && (o.exitOpen && p.exitOpen && Undisturbed(h, ExitBarrier) ==> ExitBarrier !in r.faults)
  {
    hide SiteInv, AtSnapshot, Desired, PollOf, Distinct, PollWord, Going, LockedOutBy, Undisturbed, Happen;
    FeedbackSpeaks(set_, hw, t, s, h);
    if Undisturbed(h, EntryBarrier) { PollDecides(set_, hw, t, s, h, EntryBarrier); }
    if Undisturbed(h, ExitBarrier) { PollDecides(set_, hw, t, s, h, ExitBarrier); }
  }
}
