/**
 A return nobody called that still asks for an open barrier: the blanking of an uncalled return lasts only while identity is
 accepted, and two faults on the identity channels end that without withdrawing the entry.
 */
module TwoPassExamples {
  import opened Domain
  import opened Pairing
  import opened Ledger
  import opened Coordination
  import opened Interleaving
  import opened EngineSpec
  import opened EngineExamples
  import opened TwoPass
  import opened TwoPassProofs
  import opened TwoPassRefusals
  import EngineProofs

  const AT_EXIT := NOWHERE.(exitPresent := true)
  const TAG_FAULT := Fault(Rfid, Faulty, "reader down", true, false)
  const PLATE_FAULT := Fault(Lpr, Faulty, "camera down", true, false)

  function Rules(u: Unicode): Settings {
    Settings(CFG, NO_LIMITS, u)
  }

  const OUT := TwoPass.Outside(1, "1", Registry(tag => Mapped("A1")), [], true, true)

  ghost function Then(u: Unicode, w: World, e: WorldEvent): World {
    Act(Rules(u), OUT, w, e)
  }

  /** Nobody at the weighbridge, over this store. */
  function Quiet(shop: Shop): World {
    NEW_WORLD.(shop := shop)
  }

  /** A return over this store, with this engine and this cycle bound to it. */
  predicate Returning(w: World, s: Eng, shop: Shop, bound: Option<WeighCycle>) {
    w == World(s, BToA, bound, Bridge(BToA, map[], map[]), shop)
  }

  /** The only environments that occur here. */
  predicate Usual(env: Env) {
    env.now == 1 && env.registry.Registry? && env.registry.resolve("R") == Mapped("A1")
  }

  lemma NothingCalled(u: Unicode, plate: string, rfid: string)
    ensures FindCalled(u, EMPTY_DB, plate, rfid) == NotFound
  {
    assert CalledMatches(u, EMPTY_DB, plate, rfid) == {};
  }

  lemma StaysUnbound(u: Unicode, w: World)
    requires w.eng.tx.Some? ==> w.eng.tx.value.identity != IdAccepted
    ensures TryBind(Rules(u), true, w) == w
  {
  }

  lemma Arrives(u: Unicode, shop: Shop) returns (w: World)
    ensures w == Then(u, Then(u, Quiet(shop), Device(SeeScale(EMPTY))), Sensors(AT_EXIT))
    ensures Returning(w, w.eng, shop, None) && Boarded(w.eng, NO_TAG)
  {
    var w1 := Then(u, Quiet(shop), Device(SeeScale(EMPTY)));
    var s1 := NEW_ENGINE.(lastScale := Some(EMPTY));
    assert w1 == Quiet(shop).(eng := s1);
    w := Then(u, w1, Sensors(AT_EXIT));
    var w2 := Directed(w1, AT_EXIT);
    assert SwapPosition(AT_EXIT) == AT_ENTRY && w2.direction == BToA;
    Starts(EnvFor(Rules(u), OUT, w2), s1);
    StaysUnbound(u, Feed(Rules(u), OUT, w2, SeePosition(AT_ENTRY)));
  }

  lemma Starts(env: Env, s: Eng)
    requires Usual(env) && s == NEW_ENGINE.(lastScale := Some(EMPTY))
    ensures Boarded(OnPosition(CFG, env, s, AT_ENTRY), NO_TAG)
  {
    assert AuxDevices(s.faults) == {};
    var r := Start(env, s, 0);
    var s1 := Set(r, r.tx.value.(pos := AT_ENTRY));
    assert Approaching(CFG, s1) == s1 && OnDeck(s1, AT_ENTRY) == s1 && Leaving(env, s1, AT_ENTRY) == s1;
  }

  lemma Tagged(u: Unicode, w: World, shop: Shop)
    requires Returning(w, w.eng, shop, None) && Boarded(w.eng, NO_TAG)
    ensures var w' := Then(u, w, Device(SeeTag(TAG))); Returning(w', w'.eng, shop, None) && Boarded(w'.eng, TAG)
  {
    var s1 := Set(w.eng, w.eng.tx.value.(tag := TAG));
    var env := EnvFor(Rules(u), OUT, w);
    assert EvaluateIdentity(CFG, env, s1) == s1;
    StaysUnbound(u, Feed(Rules(u), OUT, w, SeeTag(TAG)));
  }

  lemma Identified(env: Env, s: Eng)
    requires Usual(env) && Boarded(s, TAG)
    ensures At(EvaluateIdentity(CFG, env, Set(s, s.tx.value.(plate := PLATE))), EntryAuthorized, AT_ENTRY, EMPTY, PosPending, ENTRY_ON, 0, None)
    ensures EvaluateIdentity(CFG, env, Set(s, s.tx.value.(plate := PLATE))).tx.value.overrides == []
  {
    var s1 := Set(s, s.tx.value.(plate := PLATE));
    assert EvaluateIdentity(CFG, env, s1) == CrossCheck(CFG, env, s1);
    var t2 := s1.tx.value.(identity := IdAccepted, reason := ChannelsMatch);
    assert CrossCheck(CFG, env, s1) == TryAuthorize(CFG, Set(s1, t2));
    EngineProofs.Marked(s.marks, Authorized(t2, s.lastScale));
  }

  /** Once identified, the truck is bound to the cycle the store finds for it. */
  lemma Plated(u: Unicode, w: World, shop: Shop)
    requires Returning(w, w.eng, shop, None) && Boarded(w.eng, TAG)
    ensures var w' := Then(u, w, Device(SeePlate(PLATE)));
            var f := FindCalled(u, shop.db, "A1", "R");
            && Returning(w', w'.eng, shop, if f.Found? then Some(f.cycle) else None)
            && At(w'.eng, EntryAuthorized, AT_ENTRY, EMPTY, PosPending, ENTRY_ON, 0, None)
            && w'.eng.tx.value.overrides == []
  {
    hide EvaluateIdentity, FindCalled;
    Identified(EnvFor(Rules(u), OUT, w), w.eng);
  }

  /** Let in, with one identity channel gone. */
  predicate HalfBlind(s: Eng) {
    && s.tx.Some? && s.faults == map[Rfid := TAG_FAULT]
    && s.tx.value.state == EntryAuthorized && s.tx.value.identity == IdAccepted && s.tx.value.overrides == []
    && s.tx.value.tag == TAG && s.tx.value.plate == PLATE && s.tx.value.outputs == ENTRY_ON
  }

  lemma LosesOne(env: Env, s: Eng)
    requires At(s, EntryAuthorized, AT_ENTRY, EMPTY, PosPending, ENTRY_ON, 0, None) && s.tx.value.overrides == []
    ensures HalfBlind(OnFault(CFG, env, s, TAG_FAULT))
  {
    var s1 := UpdateMode(SyncFaults(s.(faults := s.faults[Rfid := TAG_FAULT])));
    assert EvaluateIdentity(CFG, env, s1) == s1;
  }

  lemma LosesBoth(env: Env, s: Eng)
    requires HalfBlind(s)
    ensures var r := OnFault(CFG, env, s, PLATE_FAULT); r.tx.Some? && r.tx.value.outputs == ENTRY_ON && r.tx.value.identity == IdManual
  {
    var s1 := UpdateMode(SyncFaults(s.(faults := s.faults[Lpr := PLATE_FAULT])));
    assert EvaluateIdentity(CFG, env, s1) == GoManual(s1);
  }

  /** Six events after which a return that no called cycle is bound to asks for an open, green barrier. */
  lemma UncalledReturnCanAskToOpen(u: Unicode)
    ensures var w := TwoPass.Play(Rules(u), NEW_WORLD, SCRIPT_BACK);
            && w.direction == BToA && w.bound.None? && w.eng.tx.Some?
            && Desired(w).exitOpen && Desired(w).exitGreen
  {
    hide Step, OnFault, Boarded, Desired, TryBind;
    assert Quiet(NEW_SHOP) == NEW_WORLD;
    var w2 := Arrives(u, NEW_SHOP);
    Tagged(u, w2, NEW_SHOP);
    var w3 := Then(u, w2, Device(SeeTag(TAG)));
    Plated(u, w3, NEW_SHOP);
    NothingCalled(u, "A1", "R");
    var w4 := Then(u, w3, Device(SeePlate(PLATE)));
    var w5 := Then(u, w4, Device(SetFault(TAG_FAULT)));
    Faulted(u, w4, TAG_FAULT);
    LosesOne(EnvFor(Rules(u), OUT, w4), w4.eng);
    var w6 := Then(u, w5, Device(SetFault(PLATE_FAULT)));
    Faulted(u, w5, PLATE_FAULT);
    LosesBoth(EnvFor(Rules(u), OUT, w5), w5.eng);
    DesiredShape(w6);
    Unrolled(u);
  }

  lemma Faulted(u: Unicode, w: World, f: Fault)
    ensures Then(u, w, Device(SetFault(f))) == w.(eng := OnFault(CFG, EnvFor(Rules(u), OUT, w), w.eng, f))
  {
    hide OnFault;
  }

  const SCRIPT_BACK := [Cue(OUT, Device(SeeScale(EMPTY))), Cue(OUT, Sensors(AT_EXIT)), Cue(OUT, Device(SeeTag(TAG))),
                        Cue(OUT, Device(SeePlate(PLATE))), Cue(OUT, Device(SetFault(TAG_FAULT))), Cue(OUT, Device(SetFault(PLATE_FAULT)))]

  lemma Turn(u: Unicode, k: nat)
    requires k < 6
    ensures TwoPass.Play(Rules(u), NEW_WORLD, SCRIPT_BACK[..k + 1])
            == Then(u, TwoPass.Play(Rules(u), NEW_WORLD, SCRIPT_BACK[..k]), SCRIPT_BACK[k].e)
  {
    hide Act;
    assert SCRIPT_BACK[..k + 1][..k] == SCRIPT_BACK[..k] && SCRIPT_BACK[k].o == OUT;
  }

  lemma Unrolled(u: Unicode)
    ensures TwoPass.Play(Rules(u), NEW_WORLD, SCRIPT_BACK)
            == Then(u, Then(u, Then(u, Then(u, Then(u, Then(u, NEW_WORLD, Device(SeeScale(EMPTY))), Sensors(AT_EXIT)), Device(SeeTag(TAG))),
                                    Device(SeePlate(PLATE))), Device(SetFault(TAG_FAULT))), Device(SetFault(PLATE_FAULT)))
  {
    hide Then;
    assert SCRIPT_BACK[..0] == [] && SCRIPT_BACK[..6] == SCRIPT_BACK;
    Turn(u, 0); Turn(u, 1); Turn(u, 2); Turn(u, 3); Turn(u, 4); Turn(u, 5);
  }

  // ---------- a completion the disk refuses ----------

  const BACK := Audited(Reading(1500, true, false, "", Healthy, 20), RawRef(2, "i"))
  const DISK_FULL := OUT.(disk := false)

  /** Somebody else's first pass and call, then the return of that truck, weighed while the disk fails. */
  const SCRIPT_REFUSED := [Cue(OUT, Elsewhere(First(P1, D1, true))), Cue(OUT, Elsewhere(CallNow("C", 12, true))),
                           Cue(OUT, Device(SeeScale(EMPTY))), Cue(OUT, Sensors(AT_EXIT)), Cue(OUT, Device(SeeTag(TAG))),
                           Cue(OUT, Device(SeePlate(PLATE))), Cue(OUT, Sensors(ON_DECK)), Cue(DISK_FULL, Device(SeeScale(BACK)))]

  function Waiting(u: Unicode): Shop {
    Shop(DB(map["P1" := P1.(cycleID := "C")],
            map["C" := CycleRow(Called, VehicleKey(u, "A1"), "P1", None, 0, 0, 0, CALLED_C)], map[], map[], 1), map[])
  }

  lemma QueueAndCallAlone(u: Unicode)
    requires RightOnAscii(u)
    ensures Then(u, Then(u, NEW_WORLD, Elsewhere(First(P1, D1, true))), Elsewhere(CallNow("C", 12, true))) == Quiet(Waiting(u))
  {
    KeyOfA1(u);
    var c := CALLED_C.(status := Queued, calledAt := None);
    assert NewCycle(FirstPassOf(P1, D1), D1) == c && Prepared(c, 11) == c;
    var w1 := Then(u, NEW_WORLD, Elsewhere(First(P1, D1, true)));
    assert w1 == Quiet(Shop(DB(map["P1" := P1.(cycleID := "C")],
                               map["C" := CycleRow(Queued, VehicleKey(u, "A1"), "P1", None, 0, 0, 0, c)], map[], map[], 1), map[]));
  }

  lemma FindsCalled(u: Unicode)
    requires RightOnAscii(u)
    ensures FindCalled(u, Waiting(u).db, "A1", "R") == Found(CALLED_C)
  {
    KeyOfA1(u);
    assert CalledMatches(u, Waiting(u).db, "A1", "R") == {"C"};
  }

  lemma DeckReached(u: Unicode, w: World)
    requires RightOnAscii(u) && Returning(w, w.eng, Waiting(u), Some(CALLED_C))
    requires At(w.eng, EntryAuthorized, AT_ENTRY, EMPTY, PosPending, ENTRY_ON, 0, None) && w.eng.tx.value.overrides == []
    ensures var w' := Then(u, w, Sensors(ON_DECK));
            && Returning(w', w'.eng, Waiting(u), Some(CALLED_C))
            && At(w'.eng, ReadyToWeigh, ON_DECK, EMPTY, PosAccepted, ALL_OFF, 0, None)
  {
    hide OnPosition, FindCalled, Waiting;
    assert SwapPosition(ON_DECK) == ON_DECK && Directed(w, ON_DECK) == w;
    Enters(EnvFor(Rules(u), OUT, w), w.eng, AT_ENTRY, PosPending, ENTRY_ON, 0, None);
    FindsCalled(u);
  }

  /** The frame is offered at once. */
  lemma OffersBack(env: Env, s: Eng) returns (t: PassTicket)
    requires At(s, ReadyToWeigh, ON_DECK, EMPTY, PosAccepted, ALL_OFF, 0, None) && env.sink.Store?
    ensures OnScale(CFG, env, s, BACK).offered == Some(t)
    ensures t.id == "ticket-" + env.suffix && t.plate == "A1" && t.rfid == "R" && t.weight == Weight(1500, 20, RawRef(2, "i"))
  {
    hide EnterWeighing, Received, OnScale;
    ScaleWeighs(env, s, BACK);
    StartsWeighing(s, BACK, ALL_OFF, 0, None);
    var w := EnterWeighing(CFG, Received(s, BACK));
    t := TicketFor(CFG, env, Weigh(CFG, w, BACK).tx.value, BACK);
    assert Weigh(CFG, w, BACK).tx.value.confirmations == 1;
  }

  lemma PlansToFinish(u: Unicode, pass: WeighPass)
    requires RightOnAscii(u) && pass.direction == BToA && pass.plate == "A1" && pass.rfid == "R"
    requires pass.weight == Weight(1500, 20, RawRef(2, "i"))
    ensures BeginSecond(u, NO_LIMITS, Waiting(u).db, pass, DrawFor(DISK_FULL), true).Finish?
  {
    hide FindCalled;
    KeyOfA1(u);
    FindsCalled(u);
  }

  lemma RefusedBack(u: Unicode, w: World)
    requires RightOnAscii(u) && Returning(w, w.eng, Waiting(u), Some(CALLED_C))
    requires At(w.eng, ReadyToWeigh, ON_DECK, EMPTY, PosAccepted, ALL_OFF, 0, None)
    ensures Refuses(Rules(u), w, Cue(DISK_FULL, Device(SeeScale(BACK))))
    ensures Act(Rules(u), DISK_FULL, w, Device(SeeScale(BACK))).shop.db == w.shop.db
  {
    hide OnScale, BeginSecond, Waiting;
    var t := OffersBack(EnvFor(Rules(u), DISK_FULL, w), w.eng);
    var pass := PassFrom(t, BToA, EvidenceOf(w.bridge, t.txID));
    PlansToFinish(u, pass);
    assert Interleaving.Run(u, NO_LIMITS, w.shop, []) == w.shop;
  }

  lemma TurnRefused(u: Unicode, k: nat)
    requires k < 7
    ensures TwoPass.Play(Rules(u), NEW_WORLD, SCRIPT_REFUSED[..k + 1])
            == Then(u, TwoPass.Play(Rules(u), NEW_WORLD, SCRIPT_REFUSED[..k]), SCRIPT_REFUSED[k].e)
  {
    hide Act;
    assert SCRIPT_REFUSED[..k + 1][..k] == SCRIPT_REFUSED[..k] && SCRIPT_REFUSED[k].o == OUT;
  }

  lemma UpToTheScale(u: Unicode)
    requires RightOnAscii(u)
    ensures var w := TwoPass.Play(Rules(u), NEW_WORLD, SCRIPT_REFUSED[..7]);
            && Returning(w, w.eng, Waiting(u), Some(CALLED_C))
            && At(w.eng, ReadyToWeigh, ON_DECK, EMPTY, PosAccepted, ALL_OFF, 0, None)
  {
    hide Then, TwoPass.Play, Waiting, Boarded;
    PlayNothing(u);
    assert SCRIPT_REFUSED[..0] == [];
    TurnRefused(u, 0); TurnRefused(u, 1); TurnRefused(u, 2); TurnRefused(u, 3); TurnRefused(u, 4); TurnRefused(u, 5); TurnRefused(u, 6);
    QueueAndCallAlone(u);
    var w2 := Arrives(u, Waiting(u));
    Tagged(u, w2, Waiting(u));
    var w3 := Then(u, w2, Device(SeeTag(TAG)));
    Plated(u, w3, Waiting(u));
    FindsCalled(u);
    DeckReached(u, Then(u, w3, Device(SeePlate(PLATE))));
  }

  lemma PlayNothing(u: Unicode)
    ensures TwoPass.Play(Rules(u), NEW_WORLD, []) == NEW_WORLD
  {
  }

  /** Eight events after which the snapshot shows a COMPLETE cycle and no complete business, while the store has it CALLED. */
  lemma RefusedCompletionShowsComplete(u: Unicode)
    requires RightOnAscii(u)
    ensures var w := TwoPass.Play(Rules(u), NEW_WORLD, SCRIPT_REFUSED);
            && ShowsUnfinishedComplete(w)
            && "C" in w.shop.db.cycles && w.shop.db.cycles["C"].status == Called
  {
    hide ShowsUnfinishedComplete, Refuses, Act, At;
    UpToTheScale(u);
    var w := TwoPass.Play(Rules(u), NEW_WORLD, SCRIPT_REFUSED[..7]);
    RefusedBack(u, w);
    assert RefusesAt(Rules(u), SCRIPT_REFUSED, 7);
    UnfinishedCompleteExactly(Rules(u), SCRIPT_REFUSED);
    assert SCRIPT_REFUSED[..|SCRIPT_REFUSED| - 1] == SCRIPT_REFUSED[..7];
  }
}
