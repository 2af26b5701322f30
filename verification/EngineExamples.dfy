/**
 A run in which one transaction is released, lets the truck in again and commits twice.
 */
module EngineExamples {
  import opened Domain
  import opened Pairing
  import opened EngineSpec
  import opened EngineProofs

  const CFG := Config("S", 500, 1000, 1, 20)
  const EMPTY := Audited(Reading(0, true, false, "", Healthy, 0), RawRef(1, "h"))
  const FULL := Audited(Reading(2000, true, false, "", Healthy, 0), RawRef(2, "i"))
  const FULL_AGAIN := Audited(Reading(1500, true, false, "", Healthy, 0), RawRef(3, "j"))
  const NOWHERE := Position(false, false, false, false, false, false, false, false, true, 0)
  const AT_ENTRY := NOWHERE.(entryPresent := true)
  const ON_DECK := NOWHERE.(frontPresent := true, rearPresent := true)
  const TAG := TagRead("R", Healthy, 0)
  const PLATE := PlateRead("A1", "", Healthy, 0)

  function Outside(u: Unicode): Env {
    Env(1, "1", Registry(tag => Mapped("A1")), Store(ticket => true), u)
  }

  function After(u: Unicode, s: Eng, e: Event): Eng {
    Step(CFG, Outside(u), s, e).eng
  }

  /** The truck's transaction as it matters here. */
  predicate At(s: Eng, st: State, pos: Position, scale: Audited, accepted: Positioned, o: Outputs, offers: nat, base: Option<Audited>) {
    && s.tx.Some? && s.faults == map[] && s.lastScale == Some(scale) && s.stableBase == base
    && s.tx.value.state == st && s.tx.value.pos == pos && s.tx.value.position == accepted
    && s.tx.value.identity == IdAccepted && s.tx.value.tag == TAG && s.tx.value.plate == PLATE
    && s.tx.value.outputs == o && Offers(s.marks) == offers
  }

  const ENTRY_ON := Outputs(true, false, false, true, false)
  const EXIT_ON := Outputs(false, true, true, false, true)
  const BOTH_ON := Outputs(true, true, true, true, true)

  /** In the lane, not identified yet. */
  predicate Boarded(s: Eng, tag: TagRead) {
    && s.tx.Some? && s.faults == map[] && s.lastScale == Some(EMPTY) && s.stableBase == None && s.marks == []
    && s.tx.value.state == Identifying && s.tx.value.pos == AT_ENTRY && s.tx.value.position == PosPending
    && s.tx.value.identity == IdPending && s.tx.value.tag == tag && s.tx.value.plate == PlateRead("", "", NoHealth, 0)
    && s.tx.value.outputs == ALL_OFF && s.tx.value.overrides == [] && s.tx.value.startedAt == 1
  }

  const NO_TAG := TagRead("", NoHealth, 0)

  lemma Boards(u: Unicode)
    ensures Boarded(After(u, After(u, NEW_ENGINE, SeeScale(EMPTY)), SeePosition(AT_ENTRY)), NO_TAG)
  {
    var s1 := After(u, NEW_ENGINE, SeeScale(EMPTY));
    assert s1 == NEW_ENGINE.(lastScale := Some(EMPTY));
    StartsIdentifying(u, s1);
    Passes(u, s1, AT_ENTRY);
  }

  lemma StartsIdentifying(u: Unicode, s: Eng)
    requires s == NEW_ENGINE.(lastScale := Some(EMPTY))
    ensures var r := Start(Outside(u), s, 0); Boarded(Set(r, r.tx.value.(pos := AT_ENTRY)), NO_TAG)
  {
    assert AuxDevices(s.faults) == {};
  }

  lemma Passes(u: Unicode, s: Eng, p: Position)
    requires s.tx.None? && p == AT_ENTRY
    requires var r := Start(Outside(u), s, p.observed); Boarded(Set(r, r.tx.value.(pos := p)), NO_TAG)
    ensures var r := Start(Outside(u), s, p.observed); After(u, s, SeePosition(p)) == Set(r, r.tx.value.(pos := p))
  {
    hide Start, EvaluatePosition, TryReady, TryAuthorize;
    var r := Start(Outside(u), s, p.observed);
    var s1 := Set(r, r.tx.value.(pos := p));
    assert Approaching(CFG, s1) == s1 && OnDeck(s1, p) == s1 && Leaving(Outside(u), s1, p) == s1;
  }

  lemma ShowsTag(u: Unicode, s: Eng)
    requires Boarded(s, NO_TAG)
    ensures Boarded(After(u, s, SeeTag(TAG)), TAG)
  {
    assert After(u, s, SeeTag(TAG)) == EvaluateIdentity(CFG, Outside(u), Set(s, s.tx.value.(tag := TAG)));
  }

  lemma ShowsPlate(u: Unicode, s: Eng)
    requires Boarded(s, TAG)
    ensures At(After(u, s, SeePlate(PLATE)), EntryAuthorized, AT_ENTRY, EMPTY, PosPending, ENTRY_ON, 0, None)
  {
    var s1 := Set(s, s.tx.value.(plate := PLATE));
    assert After(u, s, SeePlate(PLATE)) == EvaluateIdentity(CFG, Outside(u), s1) == CrossCheck(CFG, Outside(u), s1);
    var t2 := s1.tx.value.(identity := IdAccepted, reason := ChannelsMatch);
    assert CrossCheck(CFG, Outside(u), s1) == TryAuthorize(CFG, Set(s1, t2));
    Marked(s.marks, Authorized(t2, s.lastScale));
  }

  /** Both deck sensors accept the position and withdraw the entry; then weighing may begin. */
  lemma AcceptsPosition(s: Eng, accepted: Positioned, o: Outputs, n: nat, base: Option<Audited>)
    requires At(s, Positioning, ON_DECK, EMPTY, accepted, o, n, base)
    ensures At(EvaluatePosition(s), Positioning, ON_DECK, EMPTY, PosAccepted, EntryOff(o), n, base)
  {
  }

  lemma GetsReady(s: Eng, o: Outputs, n: nat, base: Option<Audited>)
    requires At(s, Positioning, ON_DECK, EMPTY, PosAccepted, o, n, base)
    ensures At(TryReady(s), ReadyToWeigh, ON_DECK, EMPTY, PosAccepted, o, n, base)
  {
    Marked(s.marks, Ready(s.tx.value, s.lastScale));
  }

  lemma DrivesOn(env: Env, s: Eng)
    requires s.tx.Some? && s.tx.value.state == EntryAuthorized && s.tx.value.identity == IdAccepted
    requires var s2 := Set(s, s.tx.value.(pos := ON_DECK, state := Positioning));
             && EvaluatePosition(s2).tx.value.position == PosAccepted && TryReady(EvaluatePosition(s2)).tx.value.state == ReadyToWeigh
    ensures OnPosition(CFG, env, s, ON_DECK) == TryReady(EvaluatePosition(Set(s, s.tx.value.(pos := ON_DECK, state := Positioning))))
  {
    hide EvaluatePosition, TryReady;
    var s1 := Set(s, s.tx.value.(pos := ON_DECK));
    assert Approaching(CFG, s1) == s1;
    var s2 := Set(s1, s1.tx.value.(state := Positioning));
    var r := TryReady(EvaluatePosition(s2));
    assert OnDeck(s1, ON_DECK) == r && Leaving(env, r, ON_DECK) == r;
  }

  lemma Enters(env: Env, s: Eng, pos: Position, accepted: Positioned, o: Outputs, n: nat, base: Option<Audited>)
    requires At(s, EntryAuthorized, pos, EMPTY, accepted, o, n, base)
    ensures At(OnPosition(CFG, env, s, ON_DECK), ReadyToWeigh, ON_DECK, EMPTY, PosAccepted, EntryOff(o), n, base)
  {
    hide EvaluatePosition, TryReady, OnPosition;
    var s2 := Set(s, s.tx.value.(pos := ON_DECK, state := Positioning));
    AcceptsPosition(s2, accepted, o, n, base);
    GetsReady(EvaluatePosition(s2), EntryOff(o), n, base);
    DrivesOn(env, s);
  }

  function Received(s: Eng, a: Audited): (r: Eng)
    requires s.tx.Some?
    ensures r.tx.Some?
  {
    SyncFaults(Receive(s, a).(faults := Receive(s, a).faults - {Scale}))
  }

  lemma ScaleWeighs(env: Env, s: Eng, a: Audited)
    requires s.tx.Some? && s.tx.value.state != FaultLockout && s.tx.value.state != Completed && a.rawRef.Present() && a.reading.Sound()
    ensures OnScale(CFG, env, s, a) == WeighAndCommit(CFG, env, EnterWeighing(CFG, Received(s, a)), a)
  {
  }

  lemma ReceivedAt(s: Eng, a: Audited, o: Outputs, n: nat, base: Option<Audited>)
    requires At(s, ReadyToWeigh, ON_DECK, EMPTY, PosAccepted, o, n, base)
    ensures At(Received(s, a), ReadyToWeigh, ON_DECK, a, PosAccepted, o, n, base)
  {
    assert Received(s, a).faults == map[];
  }

  lemma MayWeigh(f: Eng, a: Audited, o: Outputs, n: nat, base: Option<Audited>)
    requires At(f, ReadyToWeigh, ON_DECK, a, PosAccepted, o, n, base) && a.reading.Sound()
    ensures At(EnterWeighing(CFG, f), Weighing, ON_DECK, a, PosAccepted, o, n, base)
  {
    Marked(f.marks, Ready(f.tx.value, f.lastScale));
    assert Approaching(CFG, f) == f;
    assert TryReady(f) == f.(marks := f.marks + [Ready(f.tx.value, f.lastScale)]);
  }

  lemma StartsWeighing(s: Eng, a: Audited, o: Outputs, n: nat, base: Option<Audited>)
    requires At(s, ReadyToWeigh, ON_DECK, EMPTY, PosAccepted, o, n, base) && a.reading.Sound()
    ensures At(EnterWeighing(CFG, Received(s, a)), Weighing, ON_DECK, a, PosAccepted, o, n, base)
  {
    hide EnterWeighing, Received;
    ReceivedAt(s, a, o, n, base);
    MayWeigh(Received(s, a), a, o, n, base);
  }

  lemma CommitsAtOnce(u: Unicode, w: Eng, a: Audited, o: Outputs, n: nat, base: Option<Audited>)
    requires At(w, Weighing, ON_DECK, a, PosAccepted, o, n, base)
    requires (a == FULL && base.None?) || (a == FULL_AGAIN && base == Some(FULL))
    ensures At(WeighAndCommit(CFG, Outside(u), w, a).eng, ExitAuthorized, ON_DECK, a, PosAccepted, EXIT_ON, n + 1, Some(a))
  {
    var x := Weigh(CFG, w, a);
    assert x.tx.value.confirmations == 1;
    Marked(w.marks, Offered(TicketFor(CFG, Outside(u), x.tx.value, a), true));
  }

  lemma DrivesOff(u: Unicode, s: Eng)
    requires At(s, ExitAuthorized, ON_DECK, FULL, PosAccepted, EXIT_ON, 1, Some(FULL))
    ensures At(After(u, After(u, s, SeePosition(NOWHERE)), SeeScale(EMPTY)), ExitAuthorized, NOWHERE, EMPTY, PosAccepted, EXIT_ON, 1, Some(FULL))
  {
    var s1 := After(u, s, SeePosition(NOWHERE));
    assert s1 == Set(s, s.tx.value.(pos := NOWHERE));
    ScaleWeighs(Outside(u), s1, EMPTY);
    var f := Received(s1, EMPTY);
    assert f.faults == map[] && EnterWeighing(CFG, f) == f;
  }

  lemma Reaccepted(u: Unicode, s: Eng)
    requires At(s, ExitAuthorized, NOWHERE, EMPTY, PosAccepted, EXIT_ON, 1, Some(FULL))
    ensures At(EvaluateIdentity(CFG, Outside(u), s), EntryAuthorized, NOWHERE, EMPTY, PosAccepted, BOTH_ON, 1, Some(FULL))
  {
    var t1 := s.tx.value.(identity := IdAccepted, reason := ChannelsMatch);
    Marked(s.marks, Authorized(t1, s.lastScale));
    assert CrossCheck(CFG, Outside(u), s) == TryAuthorize(CFG, Set(s, t1));
  }

  lemma PollReauthorizes(u: Unicode, s: Eng)
    requires At(s, ExitAuthorized, NOWHERE, EMPTY, PosAccepted, EXIT_ON, 1, Some(FULL))
    ensures At(After(u, s, ClearFault(RemoteIO)), EntryAuthorized, NOWHERE, EMPTY, PosAccepted, BOTH_ON, 1, Some(FULL))
  {
    hide EvaluateIdentity, EvaluatePosition;
    var s1 := UpdateMode(SyncFaults(s.(faults := s.faults - {RemoteIO})));
    assert s1.faults == map[];
    assert After(u, s, ClearFault(RemoteIO)) == EvaluateIdentity(CFG, Outside(u), s1);
    Reaccepted(u, s1);
  }

  const SCRIPT := [SeeScale(EMPTY), SeePosition(AT_ENTRY), SeeTag(TAG), SeePlate(PLATE), SeePosition(ON_DECK), SeeScale(FULL),
                   SeePosition(NOWHERE), SeeScale(EMPTY), ClearFault(RemoteIO), SeePosition(ON_DECK), SeeScale(FULL_AGAIN)]

  lemma Turn(u: Unicode, k: nat)
    requires k < 11
    ensures Play(u, SCRIPT[..k + 1]) == After(u, Play(u, SCRIPT[..k]), SCRIPT[k])
  {
    assert SCRIPT[..k + 1][..k] == SCRIPT[..k];
  }

  lemma InLane(u: Unicode)
    ensures At(Play(u, SCRIPT[..4]), EntryAuthorized, AT_ENTRY, EMPTY, PosPending, ENTRY_ON, 0, None)
  {
    hide After, At, Boarded;
    assert SCRIPT[..0] == [];
    Turn(u, 0); Turn(u, 1); Turn(u, 2); Turn(u, 3);
    Boards(u);
    ShowsTag(u, Play(u, SCRIPT[..2]));
    ShowsPlate(u, Play(u, SCRIPT[..3]));
  }

  lemma Weighed(u: Unicode, k: nat, a: Audited, o: Outputs, n: nat, base: Option<Audited>)
    requires k < 11 && SCRIPT[k] == SeeScale(a)
    requires At(Play(u, SCRIPT[..k]), ReadyToWeigh, ON_DECK, EMPTY, PosAccepted, o, n, base)
    requires (a == FULL && base.None?) || (a == FULL_AGAIN && base == Some(FULL))
    ensures At(Play(u, SCRIPT[..k + 1]), ExitAuthorized, ON_DECK, a, PosAccepted, EXIT_ON, n + 1, Some(a))
  {
    hide Play, OnScale, WeighAndCommit, EnterWeighing, Received;
    var s := Play(u, SCRIPT[..k]);
    Turn(u, k);
    ScaleWeighs(Outside(u), s, a);
    StartsWeighing(s, a, o, n, base);
    CommitsAtOnce(u, EnterWeighing(CFG, Received(s, a)), a, o, n, base);
  }

  lemma FirstCommit(u: Unicode)
    ensures At(Play(u, SCRIPT[..6]), ExitAuthorized, ON_DECK, FULL, PosAccepted, EXIT_ON, 1, Some(FULL))
  {
    hide OnPosition, At, Play;
    InLane(u);
    Turn(u, 4);
    Enters(Outside(u), Play(u, SCRIPT[..4]), AT_ENTRY, PosPending, ENTRY_ON, 0, None);
    Weighed(u, 5, FULL, EntryOff(ENTRY_ON), 0, None);
  }

  lemma BothOpen(u: Unicode)
    ensures At(Play(u, SCRIPT[..9]), EntryAuthorized, NOWHERE, EMPTY, PosAccepted, BOTH_ON, 1, Some(FULL))
  {
    hide After, At, Play;
    FirstCommit(u);
    Turn(u, 6); Turn(u, 7); Turn(u, 8);
    DrivesOff(u, Play(u, SCRIPT[..6]));
    PollReauthorizes(u, Play(u, SCRIPT[..8]));
  }

  /** Eleven events after which one transaction has asked for both barriers at once and then committed a second ticket: the
      polled fault clearance re-authorises entry while the exit is still released. */
  lemma OneTransactionCanCommitTwice(u: Unicode)
    ensures var mid, end := Play(u, SCRIPT[..9]), Play(u, SCRIPT[..11]);
            && mid.tx.Some? && mid.tx.value.outputs.entryOpen && mid.tx.value.outputs.exitOpen
            && end.tx.Some? && end.tx.value.id == mid.tx.value.id && Offers(end.marks) == 2
  {
    hide OnPosition, Play;
    BothOpen(u);
    Turn(u, 9);
    Enters(Outside(u), Play(u, SCRIPT[..9]), NOWHERE, PosAccepted, BOTH_ON, 1, Some(FULL));
    Weighed(u, 10, FULL_AGAIN, EntryOff(BOTH_ON), 1, Some(FULL));
    SameTransaction(u, 9);
    SameTransaction(u, 10);
  }

  lemma SameTransaction(u: Unicode, k: nat)
    requires k < 11 && Play(u, SCRIPT[..k]).tx.Some? && Play(u, SCRIPT[..k + 1]).tx.Some?
    ensures Play(u, SCRIPT[..k + 1]).tx.value.id == Play(u, SCRIPT[..k]).tx.value.id
  {
    hide Play, Step, Inv;
    Turn(u, k);
    PlayInv(u, SCRIPT[..k]);
    StepKeeps(CFG, Outside(u), Play(u, SCRIPT[..k]), SCRIPT[k]);
  }

  function Play(u: Unicode, script: seq<Event>): Eng {
    if script == [] then NEW_ENGINE else After(u, Play(u, script[..|script| - 1]), script[|script| - 1])
  }

  lemma {:induction false} PlayInv(u: Unicode, script: seq<Event>)
    ensures Inv(CFG, Play(u, script))
  {
    NewEngineInv(CFG);
    if script != [] {
      PlayInv(u, script[..|script| - 1]);
      StepKeeps(CFG, Outside(u), Play(u, script[..|script| - 1]), script[|script| - 1]);
    }
  }
}
