/**
 A return is the mirror image of a pass inwards: in the swaps of the wrapper, and in the coils over every run of polls.
 */
module Mirrors {
  import opened Domain
  import opened EngineSpec
  import opened TwoPass
  import opened RemoteOutputs
  import opened RemoteOutputsProofs
  import opened Control
  import opened ControlProofs

  function Across(s: Side): Side {
    if s == EntrySide then ExitSide else EntrySide
  }

  function Opposite(d: Direction): Direction {
    match d
    case NoDirection => NoDirection
    case AToB => BToA
    case BToA => AToB
  }

  predicate MirroredAt(p: Position, o: Outputs, s: Side) {
    && OpenOf(SwapOutputs(o), s) == OpenOf(o, Across(s))
    && GreenWanted(SwapOutputs(o), p, s) == GreenWanted(o, SwapPosition(p), Across(s))
    && Contradicts(SwapPosition(p), s) == Contradicts(p, Across(s))
  }

  lemma SensorsAreMirrored(p: Position)
    ensures var q := SwapPosition(p);
            && SwapPosition(q) == p
            && (q.exitPresent, q.rearPresent, q.frontPresent, q.entryPresent) == (p.entryPresent, p.frontPresent, p.rearPresent, p.exitPresent)
            && q.safetyClear == p.safetyClear && q.observed == p.observed
            && DetectDirection(q) == Opposite(DetectDirection(p))
  {
  }

  lemma OutputsAreMirrored(o: Outputs, s: Side)
    ensures OpenOf(SwapOutputs(o), s) == OpenOf(o, Across(s)) && GreenOf(SwapOutputs(o), s) == GreenOf(o, Across(s))
  {
  }

  lemma FeedbackIsMirrored(p: Position, s: Side)
    ensures Feedback(SwapPosition(p), Across(s)) == Feedback(p, s) && Contradicts(SwapPosition(p), s) == Contradicts(p, Across(s))
  {
  }

  lemma SideIsMirrored(p: Position, o: Outputs, s: Side)
    ensures MirroredAt(p, o, s)
  {
    hide SwapOutputs, SwapPosition, OpenOf, GreenOf, Feedback, Contradicts, Across;
    OutputsAreMirrored(o, s);
    FeedbackIsMirrored(p, s);
  }

  lemma BuzzerIsMirrored(p: Position, o: Outputs)
    ensures SwapOutputs(SwapOutputs(o)) == o && BuzzerReady(SwapOutputs(o), p) == BuzzerReady(o, SwapPosition(p))
  {
  }

  /** A return is the mirror image of a pass inwards: swapping twice is nothing, presence sensors come in reverse order, the
      direction is the other one, and driving the swapped outputs against the physical feedback is driving the logical outputs
      against the swapped feedback. */
  lemma ReturnIsMirrored(p: Position, o: Outputs)
    ensures SwapPosition(SwapPosition(p)) == p && SwapOutputs(SwapOutputs(o)) == o
    ensures DetectDirection(SwapPosition(p)) == Opposite(DetectDirection(p))
    ensures BuzzerReady(SwapOutputs(o), p) == BuzzerReady(o, SwapPosition(p))
    ensures forall s: Side :: MirroredAt(p, o, s)
  {
    hide MirroredAt, DetectDirection, BuzzerReady, SwapPosition, SwapOutputs;
    SensorsAreMirrored(p);
    BuzzerIsMirrored(p, o);
    forall s: Side ensures MirroredAt(p, o, s) {
      SideIsMirrored(p, o, s);
    }
  }

  // ---------- over a run of polls ----------

  function MirrorPoll(p: Poll): Poll {
    Poll(if p.inputs.None? then None else Some(SwapPosition(p.inputs.value)), p.seen, SwapOutputs(p.desired), p.now)
  }

  function MirrorPolls(polls: seq<Poll>): seq<Poll> {
    seq(|polls|, i requires 0 <= i < |polls| => MirrorPoll(polls[i]))
  }

  function MirrorCtl(c: Ctl): Ctl {
    Ctl(SwapOutputs(c.applied), c.lastReady, c.buzzerUntil, c.exitSince, c.entrySince, c.safe)
  }

  function MirrorCoil(c: Coil): Coil {
    match c
    case Red(s) => Red(Across(s))
    case Green(s) => Green(Across(s))
    case OpenRequest(s) => OpenRequest(Across(s))
    case Horn => Horn
  }

  /** Each coil of b shows what its counterpart of a shows. */
  ghost predicate MirrorLit(m: Mapping, a: set<nat>, b: set<nat>) {
    forall c: Coil {:trigger Lit(m, a, c)} {:trigger Lit(m, b, MirrorCoil(c))} :: Lit(m, b, MirrorCoil(c)) <==> Lit(m, a, c)
  }

  lemma AgreeingIsMirrored(m: Mapping, o: Outputs, a: set<nat>, b: set<nat>)
    requires Agrees(m, o, a) && Agrees(m, SwapOutputs(o), b)
    ensures MirrorLit(m, a, b)
  {
    forall c: Coil ensures Lit(m, b, MirrorCoil(c)) <==> Lit(m, a, c) {
      match c
      case Red(s) => OutputsAreMirrored(o, Across(s));
      case Green(s) => OutputsAreMirrored(o, Across(s));
      case OpenRequest(s) => OutputsAreMirrored(o, Across(s));
      case Horn =>
    }
  }

  lemma SettledIsMirrored(t: Timing, c: Ctl, d: Outputs, p: Position, now: Time)
    ensures Settled(t, MirrorCtl(c), SwapOutputs(d), SwapPosition(p), now) == MirrorCtl(Settled(t, c, d, p, now))
    ensures Contradictory(SwapPosition(p)) == Contradictory(p)
  {
  }

  /** A poll that does not get as far as reconciling. */
  lemma FailedPollIsMirrored(hw: Hw, t: Timing, c: Ctl, r: Rig, r': Rig, poll: Poll)
    requires Distinct(hw.m) && AllWell(hw) && MirrorLit(hw.m, r.on, r'.on) && (poll.inputs.None? || !poll.seen)
    ensures var w, w' := PollOnce(hw, t, c, r, poll), PollOnce(hw, t, MirrorCtl(c), r', MirrorPoll(poll));
            && w'.ctl == MirrorCtl(w.ctl) && MirrorLit(hw.m, w.rig.on, w'.rig.on) && !w.ok && !w'.ok
  {
    hide SafeState, Reconcile, Contradicted;
    SafeSucceeds(hw, r);
    SafeSucceeds(hw, r');
    SafeStateKeeps(hw, r, 0);
    SafeStateKeeps(hw, r', 0);
    RestIsMirrored(hw.m, SafeState(hw, r).rig.on, SafeState(hw, r').rig.on);
  }

  lemma RestIsMirrored(m: Mapping, a: set<nat>, b: set<nat>)
    ensures (forall c :: Lit(m, a, c) <==> c.Red?) && (forall c :: Lit(m, b, c) <==> c.Red?) ==> MirrorLit(m, a, b)
  {
  }

  lemma DonePollIsMirrored(hw: Hw, t: Timing, c: Ctl, r: Rig, r': Rig, poll: Poll)
    requires Distinct(hw.m) && AllWell(hw) && ControlInv(hw, c, r, false) && ControlInv(hw, MirrorCtl(c), r', false)
    requires poll.inputs.Some? && poll.seen
    ensures var w, w' := PollOnce(hw, t, c, r, poll), PollOnce(hw, t, MirrorCtl(c), r', MirrorPoll(poll));
            && w'.ctl == MirrorCtl(w.ctl) && MirrorLit(hw.m, w.rig.on, w'.rig.on) && w.ok && w'.ok
  {
    hide PollOnce, Agrees, MirrorLit, Settled, Contradictory, SwapPosition, SwapOutputs;
    PollKeeps(hw, t, c, r, poll, false);
    PollKeeps(hw, t, MirrorCtl(c), r', MirrorPoll(poll), false);
    PollSucceeds(hw, t, c, r, poll);
    PollSucceeds(hw, t, MirrorCtl(c), r', MirrorPoll(poll));
    NothingIsMirrored();
    SettledIsMirrored(t, if c.safe then c else Rested(c).(safe := true), poll.desired, poll.inputs.value, poll.now);
    var w, w' := PollOnce(hw, t, c, r, poll), PollOnce(hw, t, MirrorCtl(c), r', MirrorPoll(poll));
    AgreeingIsMirrored(hw.m, w.ctl.applied, w.rig.on, w'.rig.on);
  }

  lemma NothingIsMirrored()
    ensures SwapOutputs(ALL_OFF) == ALL_OFF
  {
  }

  /** On working hardware, over every run: mirrored inputs and mirrored wishes give mirrored coils and a mirrored controller after
      every poll, and fail in the same polls. */
  lemma {:induction false} RunIsMirrored(hw: Hw, t: Timing, c: Ctl, r: Rig, r': Rig, polls: seq<Poll>)
    requires Distinct(hw.m) && AllWell(hw) && ControlInv(hw, c, r, false) && ControlInv(hw, MirrorCtl(c), r', false)
    requires MirrorLit(hw.m, r.on, r'.on)
    ensures var w, w' := PollAll(hw, t, c, r, polls), PollAll(hw, t, MirrorCtl(c), r', MirrorPolls(polls));
            && w'.ctl == MirrorCtl(w.ctl) && MirrorLit(hw.m, w.rig.on, w'.rig.on) && w'.ok == w.ok
  {
    hide PollOnce, MirrorPoll, MirrorCtl, MirrorLit, ControlInv, Distinct, AllWell;
    if polls != [] {
      var n := |polls| - 1;
      RunIsMirrored(hw, t, c, r, r', polls[..n]);
      assert MirrorPolls(polls)[..n] == MirrorPolls(polls[..n]);
      SafeAppliedMeansKnown(hw, t, c, r, polls[..n]);
      SafeAppliedMeansKnown(hw, t, MirrorCtl(c), r', MirrorPolls(polls[..n]));
      var w, w' := PollAll(hw, t, c, r, polls[..n]), PollAll(hw, t, MirrorCtl(c), r', MirrorPolls(polls[..n]));
      if polls[n].inputs.Some? && polls[n].seen {
        DonePollIsMirrored(hw, t, w.ctl, w.rig, w'.rig, polls[n]);
      } else {
        FailedPollIsMirrored(hw, t, w.ctl, w.rig, w'.rig, polls[n]);
      }
    }
  }
}
