/**
 The whole controller: the world of transactions, the reconciler and the coils, with every other caller in between.
 */
module Systems {
  import opened Domain
  import opened EngineSpec
  import opened EngineProofs
  import opened EngineTheorems
  import Interleaving
  import opened TwoPass
  import opened TwoPassProofs
  import opened RemoteOutputs
  import opened RemoteOutputsProofs
  import opened Control
  import opened ControlProofs
  import opened Reports

  datatype Site = Site(world: World, ctl: Ctl, rig: Rig)

  /** How one call of the reconciler reaches the workflow: what it draws from outside, after the actions of others. */
  datatype Ear = Ear(others: seq<Cue>, o: Outside)

  /** A restart keeps what is durable, the store and the coils, and forgets everything else. */
  datatype Happening =
    | Restart
    | Other(cue: Cue)
    | Polled(inputs: Option<Position>, seen: bool, now: Time, ears: nat -> Ear, lull: seq<Cue>)

  function Rebooted(s: Site): Site {
    Site(NEW_WORLD.(shop := Interleaving.Shop(s.world.shop.db, map[])), NEW_CTL, s.rig)
  }

  function AsAction(e: Event): WorldEvent {
    if e.SeePosition? then Sensors(e.p) else Device(e)
  }

  /** The world after it heard these calls, each at its own moment. */
  ghost function Hear(set_: Settings, w: World, calls: seq<Event>, ears: nat -> Ear): World {
    if calls == [] then w
    else
      var n := |calls| - 1;
      Act(set_, ears(n).o, Play(set_, Hear(set_, w, calls[..n], ears), ears(n).others), AsAction(calls[n]))
  }

  /** The world at the moment a poll takes its snapshot: it has heard the calls the poll made up to then. */
  ghost function AtSnapshot(set_: Settings, hw: Hw, s: Site, h: Happening): World
    requires h.Polled?
  {
    Play(set_, Hear(set_, s.world, Said(s.rig, Begin(hw, s.ctl, s.rig, h.inputs).rig), h.ears), h.lull)
  }

  /** The poll, reconciling what is desired at its snapshot. */
  ghost function PollOf(set_: Settings, hw: Hw, t: Timing, s: Site, h: Happening): Work
    requires h.Polled?
  {
    PollOnce(hw, t, s.ctl, s.rig, Poll(h.inputs, h.seen, Desired(AtSnapshot(set_, hw, s, h)), h.now))
  }

  ghost function Happen(set_: Settings, hw: Hw, t: Timing, s: Site, h: Happening): Site {
    match h
    case Restart => Rebooted(s)
    case Other(cue) => s.(world := Act(set_, cue.o, s.world, cue.e))
    case Polled(inputs, _, _, ears, _) =>
      var w, b := PollOf(set_, hw, t, s, h), Begin(hw, s.ctl, s.rig, inputs);
      var later := i requires 0 <= i => ears(i + |Said(s.rig, b.rig)|);
      Site(Hear(set_, AtSnapshot(set_, hw, s, h), Said(b.rig, w.rig), later), w.ctl, w.rig)
  }

  ghost function Course(set_: Settings, hw: Hw, t: Timing, s: Site, hs: seq<Happening>): Site {
    if hs == [] then s
    else Happen(set_, hw, t, Course(set_, hw, t, s, hs[..|hs| - 1]), hs[|hs| - 1])
  }

  ghost predicate SiteInv(set_: Settings, hw: Hw, s: Site) {
    WorldInv(set_, s.world) && ControlInv(hw, s.ctl, s.rig, true)
  }

  lemma {:induction false} HearKeeps(set_: Settings, w: World, calls: seq<Event>, ears: nat -> Ear)
    requires WorldInv(set_, w)
    ensures WorldInv(set_, Hear(set_, w, calls, ears))
  {
    hide Act, WorldInv;
    if calls != [] {
      var n := |calls| - 1;
      HearKeeps(set_, w, calls[..n], ears);
      var h := Hear(set_, w, calls[..n], ears);
      EveryWorldInv(set_, h, ears(n).others);
      ActKeeps(set_, ears(n).o, Play(set_, h, ears(n).others), AsAction(calls[n]));
    }
  }

  lemma SnapshotKeeps(set_: Settings, hw: Hw, s: Site, h: Happening)
    requires h.Polled? && WorldInv(set_, s.world)
    ensures WorldInv(set_, AtSnapshot(set_, hw, s, h))
  {
    hide Begin, WorldInv, Hear, Play;
    var calls := Said(s.rig, Begin(hw, s.ctl, s.rig, h.inputs).rig);
    HearKeeps(set_, s.world, calls, h.ears);
    EveryWorldInv(set_, Hear(set_, s.world, calls, h.ears), h.lull);
  }

  /** What the world desires is always lawful. */
  lemma DesiredIsLawful(set_: Settings, w: World)
    requires WorldInv(set_, w)
    ensures Lawful(Desired(w))
  {
    hide WorldInv, Desired;
    DesiredIsPaired(set_, w);
  }

  lemma HappenKeeps(set_: Settings, hw: Hw, t: Timing, s: Site, h: Happening)
    requires Distinct(hw.m) && SiteInv(set_, hw, s)
    ensures SiteInv(set_, hw, Happen(set_, hw, t, s, h))
  {
    hide WorldInv, ControlInv, Act, Hear, AtSnapshot, PollOnce, Desired, Lawful, Begin, Distinct;
    match h
    case Restart => RestartKeeps(set_, hw, s);
    case Other(cue) => ActKeeps(set_, cue.o, s.world, cue.e);
    case Polled(inputs, seen, now, ears, lull) =>
      var w1 := AtSnapshot(set_, hw, s, h);
      SnapshotKeeps(set_, hw, s, h);
      DesiredIsLawful(set_, w1);
      PollKeeps(hw, t, s.ctl, s.rig, Poll(inputs, seen, Desired(w1), now), true);
      WorkIsControl(hw, PollOf(set_, hw, t, s, h));
      var b := Begin(hw, s.ctl, s.rig, inputs);
      HearKeeps(set_, w1, Said(b.rig, PollOf(set_, hw, t, s, h).rig), i requires 0 <= i => ears(i + |Said(s.rig, b.rig)|));
  }

  lemma RestartKeeps(set_: Settings, hw: Hw, s: Site)
    requires SiteInv(set_, hw, s)
    ensures SiteInv(set_, hw, Rebooted(s))
  {
    hide Agrees, RigOK;
    NewEngineInv(set_.cfg);
  }

  lemma WorkIsControl(hw: Hw, w: Work)
    requires WorkInv(hw, w, true)
    ensures ControlInv(hw, w.ctl, w.rig, true)
  {
  }

  /** End to end, over every course of events, restarts included, and every pattern of failing writes, appends and store
      transactions: from the first successful safe state on, after every single coil write no side shows red and green
      together and green shows only over an open request. */
  lemma {:induction false} SiteIsInterlocked(set_: Settings, hw: Hw, t: Timing, s: Site, hs: seq<Happening>)
    requires Distinct(hw.m) && SiteInv(set_, hw, s)
    ensures var r := Course(set_, hw, t, s, hs);
            && SiteInv(set_, hw, r)
            && (r.rig.since.Some? ==> Interlock(hw.m, r.rig.on) && Trail(hw.m, r.rig.story, r.rig.since.value))
            && (r.ctl.safe ==> Agrees(hw.m, r.ctl.applied, r.rig.on))
  {
    hide Happen, WorldInv, Distinct;
    if hs != [] {
      SiteIsInterlocked(set_, hw, t, s, hs[..|hs| - 1]);
      HappenKeeps(set_, hw, t, Course(set_, hw, t, s, hs[..|hs| - 1]), hs[|hs| - 1]);
    }
  }

  lemma SwitchedOn(set_: Settings, hw: Hw, on: set<nat>)
    requires set_.cfg.confirmations > 0
    ensures SiteInv(set_, hw, Site(NEW_WORLD, NEW_CTL, Rig(on, [], [], None)))
  {
    hide WorldInv;
    NewWorldInv(set_);
    PowerUp(hw, on);
  }

  // ---------- lockout, end to end ----------

  lemma {:induction false} LockedHear(set_: Settings, w: World, calls: seq<Event>, ears: nat -> Ear)
    requires WorldInv(set_, w) && Locked(w.eng)
    ensures var r := Hear(set_, w, calls, ears); Locked(r.eng) && TxID(r.eng) == TxID(w.eng)
  {
    hide Act, WorldInv, Locked, Play;
    if calls != [] {
      var n := |calls| - 1;
      LockedHear(set_, w, calls[..n], ears);
      HearKeeps(set_, w, calls[..n], ears);
      var h := Hear(set_, w, calls[..n], ears);
      LockoutBlanksOutputs(set_, h, ears(n).others);
      EveryWorldInv(set_, h, ears(n).others);
      LockedOne(set_, ears(n).o, Play(set_, h, ears(n).others), AsAction(calls[n]));
    }
  }

  lemma LockedOne(set_: Settings, o: Outside, w: World, e: WorldEvent)
    requires WorldInv(set_, w) && Locked(w.eng)
    ensures var r := Act(set_, o, w, e); Locked(r.eng) && TxID(r.eng) == TxID(w.eng)
  {
    hide Act, Locked, Interleaving.ShopOK, ReleaseIsDurable, Inv;
    LockedAct(set_, o, w, e);
  }

  lemma LockedSnapshot(set_: Settings, hw: Hw, s: Site, h: Happening)
    requires h.Polled? && WorldInv(set_, s.world) && Locked(s.world.eng)
    ensures Locked(AtSnapshot(set_, hw, s, h).eng) && Desired(AtSnapshot(set_, hw, s, h)) == ALL_OFF
  {
    hide Begin, WorldInv, Hear, Play, Locked, Desired;
    var calls := Said(s.rig, Begin(hw, s.ctl, s.rig, h.inputs).rig);
    HearKeeps(set_, s.world, calls, h.ears);
    LockedHear(set_, s.world, calls, h.ears);
    LockoutBlanksOutputs(set_, Hear(set_, s.world, calls, h.ears), h.lull);
  }

  /** No permissive coil is on. */
  ghost predicate Dark(m: Mapping, on: set<nat>) {
    forall c: Coil {:trigger Lit(m, on, c)} :: Lit(m, on, c) ==> c.Red?
  }

  lemma LockedHappening(set_: Settings, hw: Hw, t: Timing, s: Site, h: Happening)
    requires Distinct(hw.m) && SiteInv(set_, hw, s) && Locked(s.world.eng) && h != Restart
    ensures var r := Happen(set_, hw, t, s, h);
            && Locked(r.world.eng) && Restrained(hw.m, s.rig, r.rig)
            && (h.Polled? && PollOf(set_, hw, t, s, h).ok ==> Dark(hw.m, r.rig.on))
  {
    hide WorldInv, ControlInv, Act, Hear, AtSnapshot, PollOnce, Desired, Locked, Begin, Distinct;
    match h
    case Other(cue) => LockedOne(set_, cue.o, s.world, cue.e);
    case Polled(inputs, seen, now, ears, lull) =>
      var w1 := AtSnapshot(set_, hw, s, h);
      SnapshotKeeps(set_, hw, s, h);
      LockedSnapshot(set_, hw, s, h);
      NothingDesiredNothingPermitted(hw, t, s.ctl, s.rig, Poll(inputs, seen, ALL_OFF, now));
      var b := Begin(hw, s.ctl, s.rig, inputs);
      LockedHear(set_, w1, Said(b.rig, PollOf(set_, hw, t, s, h).rig), i requires 0 <= i => ears(i + |Said(s.rig, b.rig)|));
  }

  /** Some poll of the course returned without an error. */
  ghost predicate SomeNil(set_: Settings, hw: Hw, t: Timing, s: Site, hs: seq<Happening>) {
    hs != [] && (SomeNil(set_, hw, t, s, hs[..|hs| - 1])
                 || (hs[|hs| - 1].Polled? && PollOf(set_, hw, t, Course(set_, hw, t, s, hs[..|hs| - 1]), hs[|hs| - 1]).ok))
  }

  /** End to end: once the engine is locked out, nothing short of a restart unlocks it; no poll beginning afterwards writes anything
      permissive, no permissive coil ever comes on, and from the first such poll that returns without an error all of them
      are off for good, in either direction. */
  lemma {:induction false} LockoutDarkensTheSite(set_: Settings, hw: Hw, t: Timing, s: Site, hs: seq<Happening>)
    requires Distinct(hw.m) && SiteInv(set_, hw, s) && Locked(s.world.eng)
    requires forall i :: 0 <= i < |hs| ==> hs[i] != Restart
    ensures var r := Course(set_, hw, t, s, hs);
            && Locked(r.world.eng) && Restrained(hw.m, s.rig, r.rig)
            && (SomeNil(set_, hw, t, s, hs) ==> Dark(hw.m, r.rig.on))
  {
    hide Happen, WorldInv, ControlInv, Distinct, Locked, PollOf;
    if hs != [] {
      var n := |hs| - 1;
      LockoutDarkensTheSite(set_, hw, t, s, hs[..n]);
      SiteIsInterlocked(set_, hw, t, s, hs[..n]);
      var r := Course(set_, hw, t, s, hs[..n]);
      LockedHappening(set_, hw, t, r, hs[n]);
      RestrainedTrans(hw.m, s.rig, r.rig, Happen(set_, hw, t, r, hs[n]).rig);
    }
  }

  // ---------- release, end to end ----------

  /** The physical side the truck leaves by. */
  function WayOut(d: Direction): Side {
    if d == BToA then EntrySide else ExitSide
  }

  /** End to end: when a poll returns without an error and the green of the truck's way out is on, the accepted weight was
      durable when the poll took its snapshot, and that side's barrier reported open in the inputs of that very poll. */
  lemma GreenMeansDurable(set_: Settings, hw: Hw, t: Timing, s: Site, h: Happening)
    requires Distinct(hw.m) && SiteInv(set_, hw, s) && h.Polled? && PollOf(set_, hw, t, s, h).ok
    requires var d := AtSnapshot(set_, hw, s, h).direction; Lit(hw.m, PollOf(set_, hw, t, s, h).rig.on, Green(WayOut(d)))
    ensures var w := AtSnapshot(set_, hw, s, h);
            && h.inputs.Some? && Feedback(h.inputs.value, WayOut(w.direction))
            && w.eng.tx.Some? && w.eng.tx.value.accepted.Some?
            && TwoPassProofs.Evidence(w.shop.db, w.direction, w.eng.tx.value.accepted.value, w.eng.tx.value.ticketID)
  {
    hide WorldInv, ControlInv, AtSnapshot, PollOnce, Desired, Distinct, TwoPassProofs.Evidence;
    var w := AtSnapshot(set_, hw, s, h);
    SnapshotKeeps(set_, hw, s, h);
    DesiredIsLawful(set_, w);
    GreenNeedsFeedback(hw, t, s.ctl, s.rig, Poll(h.inputs, h.seen, Desired(w), h.now), WayOut(w.direction));
    GreenIsReleased(set_, w);
  }

  lemma GreenIsReleased(set_: Settings, w: World)
    requires WorldInv(set_, w) && GreenOf(Desired(w), WayOut(w.direction))
    ensures w.eng.tx.Some? && w.eng.tx.value.accepted.Some?
    ensures TwoPassProofs.Evidence(w.shop.db, w.direction, w.eng.tx.value.accepted.value, w.eng.tx.value.ticketID)
  {
    hide Desired, Interleaving.ShopOK, TwoPassProofs.Evidence, Inv;
    if w.eng.tx.None? {
      NoTransactionNothingDesired(w);
    } else {
      DesiredShape(w);
      PairedEngine(set_.cfg, w.eng);
    }
  }
}
