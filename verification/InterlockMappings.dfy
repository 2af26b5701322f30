/**
 The mappings under which the interlock holds, even on hardware that never fails: exactly those that give every output its own
 address. Each of the 21 ways to share one has its run of lawful polls that breaks it.
 */
module InterlockMappings {
  import opened Domain
  import opened EngineSpec
  import opened RemoteOutputs
  import opened RemoteOutputsProofs
  import opened Control
  import opened ControlProofs
  import opened SharedAddresses

  /** Hardware on which nothing fails, and a rig that is dark when power comes on. */
  function Perfect(m: Mapping): Hw {
    Hw(m, (i: nat) => Acked, (i: nat) => true)
  }

  const DARK := Rig({}, [], [], None)

  function Run(m: Mapping, t: Timing, polls: seq<Poll>): Work {
    PollAll(Perfect(m), t, NEW_CTL, DARK, polls)
  }

  ghost predicate KeepsInterlock(m: Mapping, t: Timing, polls: seq<Poll>) {
    var r := Run(m, t, polls).rig;
    r.since.Some? ==> Trail(m, r.story, r.since.value)
  }

  ghost predicate AllLawful(polls: seq<Poll>) {
    forall i :: 0 <= i < |polls| ==> Lawful(polls[i].desired)
  }

  ghost predicate Breakable(m: Mapping, t: Timing) {
    exists polls :: AllLawful(polls) && !KeepsInterlock(m, t, polls)
  }

  // ---------- runs ----------

  const OPENED := Position(false, false, false, false, true, false, true, false, true, 0)

  const REST := Poll(Some(OPENED), true, ALL_OFF, 0)
  const LOST := Poll(None, false, ALL_OFF, 0)

  /** Both barriers report open and this is desired. */
  function Ask(d: Outputs, now: Time): Poll {
    Poll(Some(OPENED), true, d, now)
  }

  /** What a controller at work remembers, without its barrier timers. */
  function Memory(applied: Outputs, lastReady: bool, buzzerUntil: Option<Time>): Ctl {
    Ctl(applied, lastReady, buzzerUntil, None, None, true)
  }

  const AT_REST := Memory(ALL_OFF, false, None)

  function Safe(m: Mapping): set<nat> {
    FlipAll(m, {}, SAFE_PUTS)
  }

  function Puts(c: Ctl, t: Timing, d: Outputs, now: Time): seq<Put> {
    ReconcilePuts(c, t, d, OPENED, now)
  }

  function After(c: Ctl, t: Timing, d: Outputs, now: Time): Ctl {
    Memory(AppliedAfter(c, t, d, OPENED, now), BuzzerReady(d, OPENED), Pulse(c, t, BuzzerReady(d, OPENED), now).buzzerUntil)
  }

  /** After this run the controller works from this memory and exactly these coils are on. */
  ghost predicate At(m: Mapping, t: Timing, polls: seq<Poll>, c: Ctl, on: set<nat>) {
    var w := Run(m, t, polls);
    && AllLawful(polls) && w.ctl.safe && w.rig.on == on
    && Remembers(w.ctl, c.applied, c.lastReady, c.buzzerUntil)
    && w.rig.since.Some? && w.rig.since.value <= |w.rig.story|
  }

  lemma RunThen(m: Mapping, t: Timing, polls: seq<Poll>, poll: Poll)
    ensures var w := Run(m, t, polls); Run(m, t, polls + [poll]) == PollOnce(Perfect(m), t, w.ctl, w.rig, poll)
  {
    assert (polls + [poll])[..|polls + [poll]| - 1] == polls;
  }

  lemma PerfectIsWell(m: Mapping)
    ensures AllWell(Perfect(m)) && Perfect(m).m == m
  {
  }

  lemma SameMemory(a: Ctl, b: Ctl, t: Timing, d: Outputs, now: Time)
    requires Remembers(a, b.applied, b.lastReady, b.buzzerUntil)
    ensures Puts(a, t, d, now) == Puts(b, t, d, now) && After(a, t, d, now) == After(b, t, d, now)
  {
  }

  /** A state seen after the safe state was established must keep the interlock. */
  lemma SeenBreaks(m: Mapping, t: Timing, a: Rig, polls: seq<Poll>, on: set<nat>)
    requires AllLawful(polls) && a.since.Some? && a.since.value <= |a.story|
    requires Run(m, t, polls).rig.since == a.since && Seen(a, Run(m, t, polls).rig, on) && !Interlock(m, on)
    ensures Breakable(m, t)
  {
    hide Run, Interlock;
    var b := Run(m, t, polls).rig;
    var i :| |a.story| <= i < |b.story| && b.story[i].Wrote? && b.story[i].after == on;
    assert !Trail(m, b.story, a.since.value);
    assert !KeepsInterlock(m, t, polls);
  }

  /** A poll that asks makes the writes of its reconciliation, each state of them seen. */
  lemma AskIsSeen(m: Mapping, t: Timing, c: Ctl, r: Rig, d: Outputs, now: Time)
    requires c.safe
    ensures var w := PollOnce(Perfect(m), t, c, r, Ask(d, now));
            && Writes(m, r, w.rig, Puts(c, t, d, now)) && w.ctl.safe
            && Remembers(w.ctl, After(c, t, d, now).applied, After(c, t, d, now).lastReady, After(c, t, d, now).buzzerUntil)
  {
    hide Reconcile, ReconcilePuts, AppliedAfter, Writes, Remembers;
    PerfectIsWell(m);
    var b := Begin(Perfect(m), c, r, Some(OPENED));
    ReconcileIsSeen(Perfect(m), t, b, d, OPENED, now);
    ToldWrites(m, r, b.rig, Reconcile(Perfect(m), t, b, d, OPENED, now).rig, Puts(c, t, d, now));
  }

  lemma ToldWrites(m: Mapping, a: Rig, b: Rig, r: Rig, puts: seq<Put>)
    requires b == a.(calls := b.calls) && Writes(m, b, r, puts)
    ensures Writes(m, a, r, puts)
  {
    hide FlipAll;
    forall k | 0 < k <= |puts| ensures Seen(a, r, FlipAll(m, a.on, puts[..k])) {
      assert Seen(b, r, FlipAll(m, b.on, puts[..k]));
    }
  }

  lemma AskMoves(m: Mapping, t: Timing, polls: seq<Poll>, c: Ctl, on: set<nat>, d: Outputs, now: Time)
    requires At(m, t, polls, c, on) && Lawful(d)
    ensures At(m, t, polls + [Ask(d, now)], After(c, t, d, now), FlipAll(m, on, Puts(c, t, d, now)))
    ensures (exists k {:trigger Puts(c, t, d, now)[..k]} ::
               0 < k <= |Puts(c, t, d, now)| && !Interlock(m, FlipAll(m, on, Puts(c, t, d, now)[..k]))) ==> Breakable(m, t)
  {
    hide PollOnce, Puts, After, FlipAll, Interlock, Run, Seen;
    var w, more := Run(m, t, polls), polls + [Ask(d, now)];
    RunThen(m, t, polls, Ask(d, now));
    AskIsSeen(m, t, w.ctl, w.rig, d, now);
    SameMemory(w.ctl, c, t, d, now);
    var puts := Puts(c, t, d, now);
    if k :| 0 < k <= |puts| && !Interlock(m, FlipAll(m, on, puts[..k])) {
      assert Seen(w.rig, Run(m, t, more).rig, FlipAll(m, on, puts[..k]));
      SeenBreaks(m, t, w.rig, more, FlipAll(m, on, puts[..k]));
    }
  }

  /** The first poll of all makes everything safe. */
  lemma AtRest(m: Mapping, t: Timing)
    ensures At(m, t, [REST], AT_REST, Safe(m))
  {
    hide WriteAll, Reconcile, FlipAll;
    PerfectIsWell(m);
    var hw := Perfect(m);
    RunThen(m, t, [], REST);
    assert [] + [REST] == [REST];
    SafeWrites(m, DARK);
    var b := Begin(hw, NEW_CTL, DARK, REST.inputs);
    ReconcileIsSeen(hw, t, b, ALL_OFF, OPENED, 0);
    NothingToWrite(t, b.ctl);
    NoFlip(m, b.rig.on);
  }

  lemma NothingToWrite(t: Timing, c: Ctl)
    requires c.applied == ALL_OFF
    ensures ReconcilePuts(c, t, ALL_OFF, OPENED, 0) == [] && AppliedAfter(c, t, ALL_OFF, OPENED, 0) == ALL_OFF
    ensures !BuzzerReady(ALL_OFF, OPENED)
  {
  }

  lemma NoFlip(m: Mapping, on: set<nat>)
    ensures FlipAll(m, on, []) == on
  {
  }

  lemma SafeWrites(m: Mapping, r: Rig)
    ensures var d := SafeState(Perfect(m), r);
            && d.ok && d.rig.on == FlipAll(m, r.on, SAFE_PUTS) && r.story <= d.rig.story && d.rig.calls == r.calls
            && d.rig.since.Some? && (r.since.Some? ==> d.rig.since == r.since) && (r.since.None? ==> d.rig.since.value <= |d.rig.story|)
            && forall k {:trigger SAFE_PUTS[..k]} :: 0 < k <= |SAFE_PUTS| ==> Seen(r, d.rig, FlipAll(m, r.on, SAFE_PUTS[..k]))
  {
    hide FlipAll;
    var hw := Perfect(m);
    PerfectIsWell(m);
    WritesAreSeen(hw, r, SAFE_PUTS);
    WriteAllFrame(hw, r, SAFE_PUTS);
    var w, d := WriteAll(hw, r, SAFE_PUTS).rig, SafeState(hw, r).rig;
    forall k | 0 < k <= |SAFE_PUTS| ensures Seen(r, d, FlipAll(m, r.on, SAFE_PUTS[..k])) {
      SeenLater(r, w, d, FlipAll(m, r.on, SAFE_PUTS[..k]));
    }
  }

  /** Inputs that cannot be read for one poll make the next go to the safe state again. */
  lemma LossBreaks(m: Mapping, t: Timing, k: nat)
    requires 0 < k <= |SAFE_PUTS| && !Interlock(m, FlipAll(m, Safe(m), SAFE_PUTS[..k]))
    ensures Breakable(m, t)
  {
    hide WriteAll, Reconcile, FlipAll, Interlock, Seen, Safe;
    AtRest(m, t);
    var hw, polls := Perfect(m), [REST, LOST, REST];
    var w := Run(m, t, [REST]);
    RunThen(m, t, [REST], LOST);
    RunThen(m, t, [REST, LOST], REST);
    assert [REST] + [LOST] == [REST, LOST] && [REST, LOST] + [REST] == polls;
    var v := Run(m, t, [REST, LOST]);
    LostPoll(hw, t, w);
    SafeWrites(m, v.rig);
    var b := Begin(hw, v.ctl, v.rig, REST.inputs);
    PerfectIsWell(m);
    ReconcileIsSeen(hw, t, b, ALL_OFF, OPENED, 0);
    var on := FlipAll(m, Safe(m), SAFE_PUTS[..k]);
    assert Seen(v.rig, b.rig, on) by { SeenLater(v.rig, SafeState(hw, v.rig).rig, b.rig, on); }
    SeenLater(v.rig, b.rig, Run(m, t, polls).rig, on);
    SeenBreaks(m, t, v.rig, polls, on);
  }

  lemma LostPoll(hw: Hw, t: Timing, w: Work)
    ensures var v := PollOnce(hw, t, w.ctl, w.rig, LOST); !v.ctl.safe && v.rig == w.rig.(calls := v.rig.calls)
  {
  }

  /** A run of one or two polls after the first, and a moment at which red and green, or green without its request, show. */
  lemma OneBreaks(m: Mapping, t: Timing, d: Outputs, k: nat)
    requires Lawful(d) && 0 < k <= |Puts(AT_REST, t, d, 0)|
    requires !Interlock(m, FlipAll(m, Safe(m), Puts(AT_REST, t, d, 0)[..k]))
    ensures Breakable(m, t)
  {
    hide Puts, Interlock, At;
    AtRest(m, t);
    AskMoves(m, t, [REST], AT_REST, Safe(m), d, 0);
  }

  lemma TwoBreak(m: Mapping, t: Timing, d: Outputs, e: Outputs, now: Time)
    requires Lawful(d) && Lawful(e)
    requires var c, on := After(AT_REST, t, d, 0), FlipAll(m, Safe(m), Puts(AT_REST, t, d, 0));
             && Puts(c, t, e, now) != []
             && !Interlock(m, FlipAll(m, on, Puts(c, t, e, now)))
    ensures Breakable(m, t)
  {
    hide Puts, Interlock, At, After;
    AtRest(m, t);
    AskMoves(m, t, [REST], AT_REST, Safe(m), d, 0);
    var c, on := After(AT_REST, t, d, 0), FlipAll(m, Safe(m), Puts(AT_REST, t, d, 0));
    AskMoves(m, t, [REST] + [Ask(d, 0)], c, on, e, now);
    var puts := Puts(c, t, e, now);
    assert puts[..|puts|] == puts;
  }

  // ---------- the state of a coil ----------

  /** The last writes to an address decide it. */
  lemma LastWins(m: Mapping, on: set<nat>, puts: seq<Put>, a: nat, i: nat)
    requires i < |puts| && Addr(m, puts[i].coil) == a
    requires forall j :: i <= j < |puts| && Addr(m, puts[j].coil) == a ==> puts[j].value == puts[i].value
    ensures (a in FlipAll(m, on, puts)) == puts[i].value
  {
    var rest := puts[i..];
    assert puts == puts[..i] + rest;
    FlipAllAppends(m, on, puts[..i], rest);
    assert rest[0] == puts[i];
    Uniform(m, FlipAll(m, on, puts[..i]), rest, a, puts[i].value);
  }

  /** Whatever shares addresses, the safe state asks no barrier to open: those two writes come last. */
  lemma SafeRequests(m: Mapping, s: Side)
    ensures !Lit(m, Safe(m), OpenRequest(s))
  {
    LastWins(m, {}, SAFE_PUTS, Addr(m, OpenRequest(s)), if s == EntrySide then 5 else 6);
  }

  function Other(s: Side): Side {
    if s == EntrySide then ExitSide else EntrySide
  }

  /** Both barriers open, or one; green on one side or none; with or without the buzzer. */
  function Want(green: Option<Side>, open: set<Side>, buzzer: bool): Outputs {
    Outputs(green == Some(EntrySide), green == Some(ExitSide), buzzer, EntrySide in open, ExitSide in open)
  }

  const BOTH := {EntrySide, ExitSide}

  function Grant(s: Side): seq<Put> {
    [Put(Red(s), false), Put(Green(s), true)]
  }

  lemma PutsFor(t: Timing, s: Side, buzzer: bool)
    requires t.pulse > 0
    ensures Puts(AT_REST, t, Want(Some(s), BOTH, buzzer), 0)
            == [Put(OpenRequest(EntrySide), true), Put(OpenRequest(ExitSide), true)] + Grant(s) + if buzzer then [Put(Horn, true)] else []
    ensures Puts(AT_REST, t, Want(None, BOTH, true), 0)
            == [Put(OpenRequest(EntrySide), true), Put(OpenRequest(ExitSide), true), Put(Horn, true)]
    ensures Puts(AT_REST, t, Want(Some(s), {s}, buzzer), 0)
            == [Put(OpenRequest(s), true)] + Grant(s) + if buzzer then [Put(Horn, true)] else []
  {
    hide Safe;
  }

  // ---------- red shares an address ----------

  lemma RedAndGreen(m: Mapping, t: Timing, s: Side)
    requires Addr(m, Red(s)) == Addr(m, Green(s))
    ensures Breakable(m, t)
  {
    var k := if s == EntrySide then 3 else 5;
    LastWins(m, Safe(m), SAFE_PUTS[..k], Addr(m, Red(s)), k - 1);
    assert Lit(m, FlipAll(m, Safe(m), SAFE_PUTS[..k]), Green(s));
    LossBreaks(m, t, k);
  }

  /** The red of one side is the green of the other: going safe lights that green over no open request. */
  lemma RedAndOtherGreen(m: Mapping, t: Timing, s: Side)
    requires Addr(m, Red(s)) == Addr(m, Green(Other(s)))
    requires Addr(m, OpenRequest(Other(s))) != Addr(m, Red(s)) && Addr(m, OpenRequest(Other(s))) != Addr(m, Red(Other(s)))
    ensures Breakable(m, t)
  {
    var k, o := if s == EntrySide then 3 else 5, Other(s);
    var puts := SAFE_PUTS[..k];
    LastWins(m, Safe(m), puts, Addr(m, Red(s)), k - 1);
    SafeRequests(m, o);
    assert Lit(m, FlipAll(m, Safe(m), puts), Green(o));
    if Lit(m, FlipAll(m, Safe(m), puts), OpenRequest(o)) {
      Uniform(m, Safe(m), puts, Addr(m, OpenRequest(o)), false);
    }
    LossBreaks(m, t, k);
  }

  /** Red shares with its own request or with the buzzer: a green grant with the buzzer shows both. */
  lemma RedAndOwnOrHorn(m: Mapping, t: Timing, s: Side)
    requires t.pulse > 0 && (Addr(m, Red(s)) == Addr(m, OpenRequest(s)) || Addr(m, Red(s)) == Addr(m, Horn))
    ensures Breakable(m, t)
  {
    hide Puts, Safe, FlipAll;
    var d := Want(Some(s), BOTH, true);
    var puts := Puts(AT_REST, t, d, 0);
    PutsFor(t, s, true);
    LastWins(m, Safe(m), puts, Addr(m, Green(s)), 3);
    LastWins(m, Safe(m), puts, Addr(m, Horn), 4);
    var on := FlipAll(m, Safe(m), puts);
    assert Lit(m, on, Green(s)) && Lit(m, on, Horn);
    assert puts[..5] == puts;
    OneBreaks(m, t, d, 5);
  }

  /** Red shares with the other side's request: asking that barrier to open under green lights red too. */
  lemma RedAndOtherRequest(m: Mapping, t: Timing, s: Side)
    requires t.pulse > 0 && Addr(m, Red(s)) == Addr(m, OpenRequest(Other(s)))
    ensures Breakable(m, t)
  {
    hide Safe, FlipAll;
    var o := Other(s);
    var d, e := Want(Some(s), {s}, false), Want(Some(s), BOTH, false);
    var puts := Puts(AT_REST, t, d, 0);
    PutsFor(t, s, false);
    var c, on := After(AT_REST, t, d, 0), FlipAll(m, Safe(m), puts);
    LastWins(m, Safe(m), puts, Addr(m, Green(s)), 2);
    var more := Puts(c, t, e, 0);
    assert more == [Put(OpenRequest(o), true)];
    var end := FlipAll(m, on, more);
    Uniform(m, on, more, Addr(m, Green(s)), true);
    LastWins(m, on, more, Addr(m, Red(s)), 0);
    assert Lit(m, end, Green(s)) && Lit(m, end, Red(s));
    TwoBreak(m, t, d, e, 0);
  }

  // ---------- the reds are apart ----------

  lemma RedsAtRest(m: Mapping, s: Side)
    requires NoRedShared(m)
    ensures Lit(m, Safe(m), Red(s)) && !Lit(m, Safe(m), Green(s))
  {
    SafeCoils(m, {}, Red(s));
    SafeCoils(m, {}, Green(s));
  }

  /** Green shares with a request or with the buzzer: asking for those alone lights green beside red. */
  lemma GreenAndRequestOrHorn(m: Mapping, t: Timing, s: Side, c: Coil)
    requires t.pulse > 0 && NoRedShared(m) && (c.OpenRequest? || c.Horn?) && Addr(m, Green(s)) == Addr(m, c)
    ensures Breakable(m, t)
  {
    hide Puts, Safe, FlipAll;
    var d := Want(None, BOTH, true);
    var puts := Puts(AT_REST, t, d, 0);
    PutsFor(t, s, true);
    RedsAtRest(m, s);
    var i := if c.Horn? then 2 else if c.side == EntrySide then 0 else 1;
    LastWins(m, Safe(m), puts, Addr(m, c), i);
    Uniform(m, Safe(m), puts, Addr(m, Red(s)), true);
    var on := FlipAll(m, Safe(m), puts);
    assert Lit(m, on, Green(s)) && Lit(m, on, Red(s));
    assert puts[..3] == puts;
    OneBreaks(m, t, d, 3);
  }

  /** Green is on no address of a red, a request or the buzzer. */
  ghost predicate GreensApart(m: Mapping) {
    NoRedShared(m)
    && forall s: Side, c: Coil {:trigger Addr(m, Green(s)), Addr(m, c)} :: c.OpenRequest? || c.Horn? ==> Addr(m, Green(s)) != Addr(m, c)
  }

  /** One request for both barriers: withdrawing one under the other's green closes both. */
  lemma Requests(m: Mapping, t: Timing)
    requires t.pulse > 0 && GreensApart(m) && Addr(m, OpenRequest(EntrySide)) == Addr(m, OpenRequest(ExitSide))
    ensures Breakable(m, t)
  {
    hide Safe, FlipAll;
    var s := EntrySide;
    var d, e := Want(Some(s), BOTH, false), Want(Some(s), {s}, false);
    var puts := Puts(AT_REST, t, d, 0);
    PutsFor(t, s, false);
    var c, on := After(AT_REST, t, d, 0), FlipAll(m, Safe(m), puts);
    LastWins(m, Safe(m), puts, Addr(m, Green(s)), 3);
    var more := Puts(c, t, e, 0);
    assert more == [Put(OpenRequest(ExitSide), false)];
    var end := FlipAll(m, on, more);
    Uniform(m, on, more, Addr(m, Green(s)), true);
    LastWins(m, on, more, Addr(m, OpenRequest(s)), 0);
    assert Lit(m, end, Green(s)) && !Lit(m, end, OpenRequest(s));
    TwoBreak(m, t, d, e, 0);
  }

  /** One green for both sides: granting one side grants the other over no open request. */
  lemma Greens(m: Mapping, t: Timing)
    requires t.pulse > 0 && GreensApart(m) && Addr(m, Green(EntrySide)) == Addr(m, Green(ExitSide))
    requires Addr(m, OpenRequest(EntrySide)) != Addr(m, OpenRequest(ExitSide))
    ensures Breakable(m, t)
  {
    hide Puts, Safe, FlipAll;
    var s, o := EntrySide, ExitSide;
    var d := Want(Some(s), {s}, false);
    var puts := Puts(AT_REST, t, d, 0);
    PutsFor(t, s, false);
    LastWins(m, Safe(m), puts, Addr(m, Green(s)), 2);
    SafeRequests(m, o);
    var on := FlipAll(m, Safe(m), puts);
    Uniform(m, Safe(m), puts, Addr(m, OpenRequest(o)), false);
    assert Lit(m, on, Green(o)) && !Lit(m, on, OpenRequest(o));
    assert puts[..3] == puts;
    OneBreaks(m, t, d, 3);
  }

  /** One red for both sides: withdrawing one green lights red beside the other. */
  lemma Reds(m: Mapping, t: Timing)
    requires t.pulse > 0 && GreensApart(m) && Addr(m, Red(EntrySide)) == Addr(m, Red(ExitSide))
    requires Addr(m, Green(EntrySide)) != Addr(m, Green(ExitSide))
    ensures Breakable(m, t)
  {
    hide Safe, FlipAll;
    var s := EntrySide;
    var d, e := Outputs(true, true, false, true, true), Want(Some(s), BOTH, false);
    var puts := Puts(AT_REST, t, d, 0);
    assert puts == [Put(OpenRequest(EntrySide), true), Put(OpenRequest(ExitSide), true)] + Grant(EntrySide) + Grant(ExitSide);
    var c, on := After(AT_REST, t, d, 0), FlipAll(m, Safe(m), puts);
    LastWins(m, Safe(m), puts, Addr(m, Green(s)), 3);
    var more := Puts(c, t, e, 0);
    assert more == [Put(Green(ExitSide), false), Put(Red(ExitSide), true)];
    var end := FlipAll(m, on, more);
    Uniform(m, on, more, Addr(m, Green(s)), true);
    LastWins(m, on, more, Addr(m, Red(s)), 1);
    assert Lit(m, end, Green(s)) && Lit(m, end, Red(s));
    TwoBreak(m, t, d, e, 0);
  }

  /** A request shares with the buzzer: the end of the buzzer's pulse closes the barrier under green. */
  lemma RequestAndHorn(m: Mapping, t: Timing, s: Side)
    requires t.pulse > 0 && GreensApart(m) && Addr(m, OpenRequest(s)) == Addr(m, Horn)
    ensures Breakable(m, t)
  {
    hide Safe, FlipAll;
    var d := Want(Some(s), {s}, true);
    var puts := Puts(AT_REST, t, d, 0);
    PutsFor(t, s, true);
    var c, on := After(AT_REST, t, d, 0), FlipAll(m, Safe(m), puts);
    LastWins(m, Safe(m), puts, Addr(m, Green(s)), 2);
    var more := Puts(c, t, d, t.pulse);
    assert more == [Put(Horn, false)];
    var end := FlipAll(m, on, more);
    Uniform(m, on, more, Addr(m, Green(s)), true);
    LastWins(m, on, more, Addr(m, OpenRequest(s)), 0);
    assert Lit(m, end, Green(s)) && !Lit(m, end, OpenRequest(s));
    TwoBreak(m, t, d, d, t.pulse);
  }

  // ---------- the exact mappings ----------

  /** Any shared address can be made to break the interlock. */
  lemma SharedBreaks(m: Mapping, t: Timing)
    requires t.pulse > 0 && !Distinct(m)
    ensures Breakable(m, t)
  {
    hide Breakable;
    if !NoRedShared(m) {
      var c: Coil, d: Coil :| c.Red? && !d.Red? && Addr(m, c) == Addr(m, d);
      RedShared(m, t, c.side, d);
    } else if !GreensApart(m) {
      var s: Side, c: Coil :| (c.OpenRequest? || c.Horn?) && Addr(m, Green(s)) == Addr(m, c);
      GreenAndRequestOrHorn(m, t, s, c);
    } else {
      var c: Coil, d: Coil :| Addr(m, c) == Addr(m, d) && c != d;
      ApartShared(m, t, c, d);
    }
  }

  lemma RedShared(m: Mapping, t: Timing, s: Side, d: Coil)
    requires t.pulse > 0 && !d.Red? && Addr(m, Red(s)) == Addr(m, d)
    ensures Breakable(m, t)
  {
    hide Breakable, Addr;
    match d
    case Horn => RedAndOwnOrHorn(m, t, s);
    case OpenRequest(o) => if o == s { RedAndOwnOrHorn(m, t, s); } else { RedAndOtherRequest(m, t, s); }
    case Green(o) =>
      if o == s {
        RedAndGreen(m, t, s);
      } else if Addr(m, Red(s)) == Addr(m, OpenRequest(Other(s))) {
        RedAndOtherRequest(m, t, s);
      } else if Addr(m, Red(o)) == Addr(m, OpenRequest(o)) {
        RedAndOwnOrHorn(m, t, o);
      } else {
        RedAndOtherGreen(m, t, s);
      }
  }

  lemma ApartShared(m: Mapping, t: Timing, c: Coil, d: Coil)
    requires t.pulse > 0 && GreensApart(m) && c != d && Addr(m, c) == Addr(m, d)
    ensures Breakable(m, t)
  {
    hide Breakable;
    if Addr(m, OpenRequest(EntrySide)) == Addr(m, OpenRequest(ExitSide)) {
      Requests(m, t);
    } else if Addr(m, Green(EntrySide)) == Addr(m, Green(ExitSide)) {
      Greens(m, t);
    } else if Addr(m, Red(EntrySide)) == Addr(m, Red(ExitSide)) {
      Reds(m, t);
    } else {
      OnlyHornIsLeft(m, c, d);
      var s :| Addr(m, OpenRequest(s)) == Addr(m, Horn);
      RequestAndHorn(m, t, s);
    }
  }

  lemma OnlyHornIsLeft(m: Mapping, c: Coil, d: Coil)
    requires GreensApart(m) && c != d && Addr(m, c) == Addr(m, d)
    requires Addr(m, OpenRequest(EntrySide)) != Addr(m, OpenRequest(ExitSide))
    requires Addr(m, Green(EntrySide)) != Addr(m, Green(ExitSide)) && Addr(m, Red(EntrySide)) != Addr(m, Red(ExitSide))
    ensures Addr(m, OpenRequest(EntrySide)) == Addr(m, Horn) || Addr(m, OpenRequest(ExitSide)) == Addr(m, Horn)
  {
    match c
    case Red(_) =>
    case Green(_) =>
    case OpenRequest(_) =>
    case Horn =>
  }

  /** On hardware that never fails, every run of lawful polls keeps the interlock if and only if no two outputs share an address. */
  lemma InterlockExactly(m: Mapping, t: Timing)
    requires t.pulse > 0
    ensures (forall polls {:trigger KeepsInterlock(m, t, polls)} :: AllLawful(polls) ==> KeepsInterlock(m, t, polls)) <==> Distinct(m)
  {
    if Distinct(m) {
      forall polls | AllLawful(polls) ensures KeepsInterlock(m, t, polls) {
        PowerUp(Perfect(m), {});
        EveryWriteIsInterlocked(Perfect(m), t, NEW_CTL, DARK, polls);
      }
    } else {
      SharedBreaks(m, t);
    }
  }
}
