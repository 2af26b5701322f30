/**
 What the reconciler guarantees whichever writes and audit appends fail.
 */
module ControlProofs {
  import opened Domain
  import opened EngineSpec
  import opened RemoteOutputs
  import opened RemoteOutputsProofs
  import opened Control

  // ---------- the invariant ----------

  /** The controller's picture of the outputs is what the coils show, and each side shows exactly one of red and green. */
  ghost predicate Agrees(m: Mapping, o: Outputs, on: set<nat>) {
    && (forall s: Side {:trigger Lit(m, on, Green(s))} :: Lit(m, on, Green(s)) == GreenOf(o, s))
    && (forall s: Side {:trigger Lit(m, on, OpenRequest(s))} :: Lit(m, on, OpenRequest(s)) == OpenOf(o, s))
    && (forall s: Side {:trigger Lit(m, on, Red(s))} :: Lit(m, on, Red(s)) == !GreenOf(o, s))
    && Lit(m, on, Horn) == o.buzzer
  }

  ghost predicate RigOK(hw: Hw, r: Rig) {
    r.since.Some? ==>
      r.since.value <= |r.story| && Interlock(hw.m, r.on) && Trail(hw.m, r.story, r.since.value)
  }

  /** The interlock part holds as long as only lawful outputs are desired. */
  ghost predicate ControlInv(hw: Hw, c: Ctl, r: Rig, lawful: bool) {
    && (lawful ==> RigOK(hw, r))
    && (c.safe ==> r.since.Some? && Agrees(hw.m, c.applied, r.on))
  }

  ghost predicate WorkInv(hw: Hw, w: Work, lawful: bool) {
    ControlInv(hw, w.ctl, w.rig, lawful) && (w.ok ==> w.ctl.safe)
  }

  /** Green is desired only over a desired open request. */
  predicate Lawful(o: Outputs) {
    (o.entryGreen ==> o.entryOpen) && (o.exitGreen ==> o.exitOpen)
  }

  // ---------- the phases ----------

  lemma AppliedAgrees(m: Mapping, o: Outputs, on: set<nat>, cmd: Command)
    requires Distinct(m) && Agrees(m, o, on)
    ensures Agrees(m, Applied(o, cmd), FlipAll(m, on, PutsOf(cmd)))
  {
    hide Distinct, FlipAll, PutsOf, Lit;
    PerformedCoils(m, on, cmd);
  }

  lemma PerformFrame(hw: Hw, r: Rig, cmd: Command)
    ensures var d := Perform(hw, r, cmd);
            && d.rig.since == r.since && r.story <= d.rig.story
            && (d.ok ==> d.rig.on == FlipAll(hw.m, r.on, PutsOf(cmd)))
  {
    WriteAllFrame(hw, if cmd.on then Note(hw, r, Intent(cmd)).rig else r, PutsOf(cmd));
  }

  lemma DoKeeps(hw: Hw, w: Work, cmd: Command, lawful: bool)
    requires Distinct(hw.m) && WorkInv(hw, w, lawful)
    requires lawful && w.ok && cmd.Light? && cmd.on ==> OpenOf(w.ctl.applied, cmd.side)
    requires lawful && w.ok && cmd.Barrier? && !cmd.on ==> !GreenOf(w.ctl.applied, cmd.side)
    ensures var r := Do(hw, w, cmd);
            && WorkInv(hw, r, lawful)
            && (r.ok ==> w.ok && r.ctl == w.ctl.(applied := Applied(w.ctl.applied, cmd)))
  {
    if w.ok {
      PerformFrame(hw, w.rig, cmd);
      if lawful { PerformKeeps(hw, w.rig, cmd, w.rig.since.value); }
      var d := Perform(hw, w.rig, cmd);
      if d.ok { AppliedAgrees(hw.m, w.ctl.applied, w.rig.on, cmd); }
    }
  }

  lemma RequestKeeps(hw: Hw, w: Work, s: Side, want: bool, now: Time, lawful: bool)
    requires Distinct(hw.m) && WorkInv(hw, w, lawful)
    ensures var r := Request(hw, w, s, want, now);
            && WorkInv(hw, r, lawful)
            && (r.ok ==>
                 && w.ok && OpenOf(r.ctl.applied, s) == want
                 && r.ctl == WithSince(w.ctl, s, if want == OpenOf(w.ctl.applied, s) then SinceOf(w.ctl, s)
                                                 else if want then Some(now) else None).(applied := r.ctl.applied)
                 && (forall o: Side :: o != s ==>
                       OpenOf(r.ctl.applied, o) == OpenOf(w.ctl.applied, o) && GreenOf(r.ctl.applied, o) == GreenOf(w.ctl.applied, o))
                 && r.ctl.applied.buzzer == w.ctl.applied.buzzer)
  {
    if w.ok && want != OpenOf(w.ctl.applied, s) {
      var w1 := if !want && GreenOf(w.ctl.applied, s) then Do(hw, w, Light(s, false)) else w;
      if !want && GreenOf(w.ctl.applied, s) { DoKeeps(hw, w, Light(s, false), lawful); }
      DoKeeps(hw, w1, Barrier(s, want), lawful);
    }
  }

  lemma LampKeeps(hw: Hw, w: Work, s: Side, green: bool, lawful: bool)
    requires Distinct(hw.m) && WorkInv(hw, w, lawful)
    requires lawful && w.ok && green ==> OpenOf(w.ctl.applied, s)
    ensures var r := Lamp(hw, w, s, green);
            && WorkInv(hw, r, lawful)
            && (r.ok ==>
                 && w.ok && GreenOf(r.ctl.applied, s) == green
                 && r.ctl == w.ctl.(applied := r.ctl.applied)
                 && r.ctl.applied == Applied(w.ctl.applied, Light(s, green)))
  {
    if w.ok && green != GreenOf(w.ctl.applied, s) { DoKeeps(hw, w, Light(s, green), lawful); }
  }

  lemma SoundKeeps(hw: Hw, w: Work, t: Timing, ready: bool, now: Time, lawful: bool)
    requires Distinct(hw.m) && WorkInv(hw, w, lawful)
    ensures var r := Sound(hw, w, t, ready, now);
            && WorkInv(hw, r, lawful)
            && (r.ok ==>
                 && w.ok
                 && var c := Pulse(w.ctl, t, ready, now);
                    r.ctl == c.(applied := c.applied.(buzzer := c.buzzerUntil.Some? && now < c.buzzerUntil.value)))
  {
    if w.ok {
      var c := Pulse(w.ctl, t, ready, now);
      var on := c.buzzerUntil.Some? && now < c.buzzerUntil.value;
      if on != c.applied.buzzer { DoKeeps(hw, w.(ctl := c), Buzz(on), lawful); }
    }
  }

  lemma ConfirmKeeps(hw: Hw, w: Work, t: Timing, s: Side, desired: Outputs, p: Position, now: Time, lawful: bool)
    requires WorkInv(hw, w, lawful)
    ensures var r := Confirm(w, t, s, desired, p, now);
            && WorkInv(hw, r, lawful) && r.ok == w.ok
            && r.ctl == (if w.ok && OpenOf(desired, s) && Feedback(p, s) then WithSince(w.ctl, s, None) else w.ctl)
            && r.rig.on == w.rig.on && r.rig.story == w.rig.story
  {
  }

  /** What the outputs should be after a reconciliation. */
  function Target(t: Timing, c: Ctl, desired: Outputs, p: Position, now: Time): Outputs {
    var u := Pulse(c, t, BuzzerReady(desired, p), now).buzzerUntil;
    Outputs(GreenWanted(desired, p, EntrySide), GreenWanted(desired, p, ExitSide), u.Some? && now < u.value,
            desired.entryOpen, desired.exitOpen)
  }

  /** A side's timer after its request was handled. */
  function Restarted(c: Ctl, s: Side, desired: Outputs, now: Time): Option<Time> {
    if OpenOf(desired, s) == OpenOf(c.applied, s) then SinceOf(c, s) else if OpenOf(desired, s) then Some(now) else None
  }

  lemma RequestedKeeps(hw: Hw, w: Work, desired: Outputs, now: Time, lawful: bool)
    requires Distinct(hw.m) && WorkInv(hw, w, lawful)
    ensures var r := Requested(hw, w, desired, now);
            && WorkInv(hw, r, lawful)
            && (r.ok ==>
                 && w.ok
                 && r.ctl == w.ctl.(applied := r.ctl.applied, entrySince := Restarted(w.ctl, EntrySide, desired, now),
                                    exitSince := Restarted(w.ctl, ExitSide, desired, now))
                 && r.ctl.applied.entryOpen == desired.entryOpen && r.ctl.applied.exitOpen == desired.exitOpen
                 && r.ctl.applied.buzzer == w.ctl.applied.buzzer)
  {
    RequestKeeps(hw, w, EntrySide, desired.entryOpen, now, lawful);
    var w1 := Request(hw, w, EntrySide, desired.entryOpen, now);
    RequestKeeps(hw, w1, ExitSide, desired.exitOpen, now, lawful);
    var r := Requested(hw, w, desired, now);
    if r.ok {
      assert OpenOf(r.ctl.applied, EntrySide) == OpenOf(w1.ctl.applied, EntrySide);
      assert OpenOf(w1.ctl.applied, ExitSide) == OpenOf(w.ctl.applied, ExitSide);
    }
  }

  lemma LampsKeep(hw: Hw, w: Work, desired: Outputs, p: Position, lawful: bool)
    requires Distinct(hw.m) && WorkInv(hw, w, lawful) && (lawful ==> Lawful(desired))
    requires w.ok ==> w.ctl.applied.entryOpen == desired.entryOpen && w.ctl.applied.exitOpen == desired.exitOpen
    ensures var r := Lamps(hw, w, desired, p);
            && WorkInv(hw, r, lawful)
            && (r.ok ==>
                 && w.ok
                 && r.ctl == w.ctl.(applied := w.ctl.applied.(entryGreen := GreenWanted(desired, p, EntrySide),
                                                              exitGreen := GreenWanted(desired, p, ExitSide))))
  {
    LampKeeps(hw, w, EntrySide, GreenWanted(desired, p, EntrySide), lawful);
    LampKeeps(hw, Lamp(hw, w, EntrySide, GreenWanted(desired, p, EntrySide)), ExitSide, GreenWanted(desired, p, ExitSide), lawful);
  }

  lemma ConfirmedKeeps(hw: Hw, w: Work, t: Timing, desired: Outputs, p: Position, now: Time, lawful: bool)
    requires WorkInv(hw, w, lawful)
    ensures var r := Confirmed(w, t, desired, p, now);
            && WorkInv(hw, r, lawful) && r.ok == w.ok
            && (w.ok ==> r.ctl == w.ctl.(entrySince := if desired.entryOpen && p.entryOpen then None else w.ctl.entrySince,
                                         exitSince := if desired.exitOpen && p.exitOpen then None else w.ctl.exitSince))
  {
    ConfirmKeeps(hw, w, t, EntrySide, desired, p, now, lawful);
    ConfirmKeeps(hw, Confirm(w, t, EntrySide, desired, p, now), t, ExitSide, desired, p, now, lawful);
  }

  /** A side's timer after a reconciliation that succeeds. */
  function Timer(c: Ctl, s: Side, desired: Outputs, p: Position, now: Time): Option<Time> {
    if OpenOf(desired, s) && Feedback(p, s) then None else Restarted(c, s, desired, now)
  }

  /** The controller after a reconciliation that succeeds. */
  function Settled(t: Timing, c: Ctl, desired: Outputs, p: Position, now: Time): Ctl {
    var ready := BuzzerReady(desired, p);
    Ctl(Target(t, c, desired, p, now), ready, Pulse(c, t, ready, now).buzzerUntil,
        Timer(c, EntrySide, desired, p, now), Timer(c, ExitSide, desired, p, now), true)
  }

  lemma ReconcileKeeps(hw: Hw, t: Timing, w: Work, desired: Outputs, p: Position, now: Time, lawful: bool)
    requires Distinct(hw.m) && WorkInv(hw, w, lawful) && (lawful ==> Lawful(desired))
    ensures var r := Reconcile(hw, t, w, desired, p, now);
            WorkInv(hw, r, lawful) && (r.ok ==> w.ok && r.ctl == Settled(t, w.ctl, desired, p, now))
  {
    var w1 := Requested(hw, w, desired, now);
    RequestedKeeps(hw, w, desired, now, lawful);
    var w2 := Lamps(hw, w1, desired, p);
    LampsKeep(hw, w1, desired, p, lawful);
    var w3 := Sound(hw, w2, t, BuzzerReady(desired, p), now);
    SoundKeeps(hw, w2, t, BuzzerReady(desired, p), now, lawful);
    ConfirmedKeeps(hw, w3, t, desired, p, now, lawful);
  }

  lemma SafeKeeps(hw: Hw, r: Rig, lawful: bool)
    requires Distinct(hw.m) && (lawful ==> RigOK(hw, r))
    ensures var d := SafeState(hw, r);
            (lawful ==> RigOK(hw, d.rig)) && (d.ok ==> d.rig.since.Some? && Agrees(hw.m, ALL_OFF, d.rig.on))
  {
    hide SafeState;
    SafeStateKeeps(hw, r, if r.since.Some? then r.since.value else 0);
  }

  lemma BeginKeeps(hw: Hw, c: Ctl, r: Rig, inputs: Option<Position>, lawful: bool)
    requires Distinct(hw.m) && ControlInv(hw, c, r, lawful)
    ensures WorkInv(hw, Begin(hw, c, r, inputs), lawful)
  {
    hide SafeState;
    SafeKeeps(hw, r, lawful);
  }

  lemma ContradictedKeeps(hw: Hw, w: Work, p: Position, lawful: bool)
    requires Distinct(hw.m) && WorkInv(hw, w, lawful) && w.ok
    ensures var r := Contradicted(hw, w, p); WorkInv(hw, r, lawful) && (r.ok ==> r.ctl == Rested(w.ctl))
  {
    var r1 := if Contradicts(p, EntrySide) then Tell(w.rig, ContradictionFault(EntrySide)) else w.rig;
    var r2 := if Contradicts(p, ExitSide) then Tell(r1, ContradictionFault(ExitSide)) else r1;
    hide SafeState;
    SafeKeeps(hw, r2, lawful);
  }

  predicate Contradictory(p: Position) {
    Contradicts(p, EntrySide) || Contradicts(p, ExitSide)
  }

  /** One poll: the invariant survives, and when it returns without an error the whole controller is determined. */
  lemma PollKeeps(hw: Hw, t: Timing, c: Ctl, r: Rig, poll: Poll, lawful: bool)
    requires Distinct(hw.m) && ControlInv(hw, c, r, lawful) && (lawful ==> Lawful(poll.desired))
    ensures var w := PollOnce(hw, t, c, r, poll);
            && WorkInv(hw, w, lawful)
            && (w.ok ==>
                 && poll.inputs.Some?
                 && var c0, p := if c.safe then c else Rested(c).(safe := true), poll.inputs.value;
                    w.ctl == if Contradictory(p) then Rested(c0) else Settled(t, c0, poll.desired, p, poll.now))
  {
    BeginKeeps(hw, c, r, poll.inputs, lawful);
    var b := Begin(hw, c, r, poll.inputs);
    if b.ok && poll.seen {
      var p := poll.inputs.value;
      if Contradictory(p) {
        ContradictedKeeps(hw, b, p, lawful);
      } else {
        ReconcileKeeps(hw, t, b, poll.desired, p, poll.now, lawful);
      }
    }
  }

  // ---------- headline results ----------

  /** From the first successful safe state on, whatever writes and appends fail: after every single write no side shows red and
      green together, and green shows only over the same side's open request. And whenever the controller holds its outputs
      for safe, its picture of them is what the coils show. */
  lemma {:induction false} EveryWriteIsInterlocked(hw: Hw, t: Timing, c: Ctl, r: Rig, polls: seq<Poll>)
    requires Distinct(hw.m) && ControlInv(hw, c, r, true) && forall i :: 0 <= i < |polls| ==> Lawful(polls[i].desired)
    ensures var w := PollAll(hw, t, c, r, polls);
            && ControlInv(hw, w.ctl, w.rig, true)
            && (w.rig.since.Some? ==> Interlock(hw.m, w.rig.on) && Trail(hw.m, w.rig.story, w.rig.since.value))
            && (w.ctl.safe ==> Agrees(hw.m, w.ctl.applied, w.rig.on))
  {
    if polls != [] {
      var n := |polls| - 1;
      EveryWriteIsInterlocked(hw, t, c, r, polls[..n]);
      var w := PollAll(hw, t, c, r, polls[..n]);
      PollKeeps(hw, t, w.ctl, w.rig, polls[n], true);
    }
  }

  /** Whatever is desired, in every run the controller never trusts outputs the coils do not show. */
  lemma {:induction false} SafeAppliedMeansKnown(hw: Hw, t: Timing, c: Ctl, r: Rig, polls: seq<Poll>)
    requires Distinct(hw.m) && ControlInv(hw, c, r, false)
    ensures var w := PollAll(hw, t, c, r, polls);
            ControlInv(hw, w.ctl, w.rig, false) && (w.ctl.safe ==> Agrees(hw.m, w.ctl.applied, w.rig.on))
  {
    if polls != [] {
      var n := |polls| - 1;
      SafeAppliedMeansKnown(hw, t, c, r, polls[..n]);
      var w := PollAll(hw, t, c, r, polls[..n]);
      PollKeeps(hw, t, w.ctl, w.rig, polls[n], false);
    }
  }

  /** A controller fresh from power-up, over coils in any state, starts inside the invariant. */
  lemma PowerUp(hw: Hw, on: set<nat>)
    ensures ControlInv(hw, NEW_CTL, Rig(on, [], [], None), true)
  {
  }

  /** After a poll without an error a green coil that is on has its barrier's open feedback among the inputs of that same poll. */
  lemma GreenNeedsFeedback(hw: Hw, t: Timing, c: Ctl, r: Rig, poll: Poll, s: Side)
    requires Distinct(hw.m) && ControlInv(hw, c, r, true) && Lawful(poll.desired)
    requires PollOnce(hw, t, c, r, poll).ok && Lit(hw.m, PollOnce(hw, t, c, r, poll).rig.on, Green(s))
    ensures poll.inputs.Some? && Feedback(poll.inputs.value, s) && GreenOf(poll.desired, s) && !Contradicts(poll.inputs.value, s)
    ensures Lit(hw.m, PollOnce(hw, t, c, r, poll).rig.on, OpenRequest(s))
  {
    PollKeeps(hw, t, c, r, poll, true);
  }

  /** The guard is exact: a poll without an error and without contradictory feedback leaves some green on without its open
      request if and only if green was desired without open. */
  lemma UnlawfulExactly(hw: Hw, t: Timing, c: Ctl, r: Rig, poll: Poll)
    requires Distinct(hw.m) && ControlInv(hw, c, r, false) && PollOnce(hw, t, c, r, poll).ok
    requires poll.inputs.Some? && !Contradictory(poll.inputs.value)
    ensures (exists s: Side :: var on := PollOnce(hw, t, c, r, poll).rig.on; Lit(hw.m, on, Green(s)) && !Lit(hw.m, on, OpenRequest(s)))
            <==> !Lawful(poll.desired)
  {
    PollKeeps(hw, t, c, r, poll, false);
    var on := PollOnce(hw, t, c, r, poll).rig.on;
    assert Lit(hw.m, on, Green(EntrySide)) == GreenWanted(poll.desired, poll.inputs.value, EntrySide);
    assert Lit(hw.m, on, Green(ExitSide)) == GreenWanted(poll.desired, poll.inputs.value, ExitSide);
  }

  /** What the coils show after a poll without an error and without contradictory feedback: the requests desired, green where it is desired
      over feedback or over no request, red where green is not; and the buzzer only if it is desired, some barrier is requested open,
      and every barrier requested open reports open. */
  lemma CoilsExactly(hw: Hw, t: Timing, c: Ctl, r: Rig, poll: Poll)
    requires Distinct(hw.m) && ControlInv(hw, c, r, false) && PollOnce(hw, t, c, r, poll).ok
    requires poll.inputs.Some? && !(poll.inputs.value.entryOpen && poll.inputs.value.entryClosed)
             && !(poll.inputs.value.exitOpen && poll.inputs.value.exitClosed)
    ensures var on, o, p := PollOnce(hw, t, c, r, poll).rig.on, poll.desired, poll.inputs.value;
            && (Lit(hw.m, on, OpenRequest(EntrySide)) <==> o.entryOpen) && (Lit(hw.m, on, OpenRequest(ExitSide)) <==> o.exitOpen)
            && (Lit(hw.m, on, Green(EntrySide)) <==> o.entryGreen && (o.entryOpen ==> p.entryOpen))
            && (Lit(hw.m, on, Green(ExitSide)) <==> o.exitGreen && (o.exitOpen ==> p.exitOpen))
            && (Lit(hw.m, on, Red(EntrySide)) <==> !Lit(hw.m, on, Green(EntrySide)))
            && (Lit(hw.m, on, Red(ExitSide)) <==> !Lit(hw.m, on, Green(ExitSide)))
            && (Lit(hw.m, on, Horn) ==>
                  o.buzzer && (o.entryOpen || o.exitOpen) && (o.entryOpen ==> p.entryOpen) && (o.exitOpen ==> p.exitOpen))
  {
    hide PollOnce;
    PollKeeps(hw, t, c, r, poll, false);
  }

  // ---------- working hardware delivers ----------

  /** Every write is acknowledged and every append succeeds. */
  ghost predicate AllWell(hw: Hw) {
    Working(hw) && forall i: nat :: hw.disk(i)
  }

  lemma DoSucceeds(hw: Hw, w: Work, cmd: Command)
    requires AllWell(hw) && w.ok
    ensures Do(hw, w, cmd).ok
  {
    hide WriteAll;
    WorkingWrites(hw, if cmd.on then Note(hw, w.rig, Intent(cmd)).rig else w.rig, PutsOf(cmd));
  }

  lemma RequestSucceeds(hw: Hw, w: Work, s: Side, want: bool, now: Time)
    requires AllWell(hw) && w.ok
    ensures Request(hw, w, s, want, now).ok
  {
    hide Do, AllWell;
    DoSucceeds(hw, w, Light(s, false));
    DoSucceeds(hw, w, Barrier(s, want));
    DoSucceeds(hw, Do(hw, w, Light(s, false)), Barrier(s, want));
  }

  lemma LampSucceeds(hw: Hw, w: Work, s: Side, green: bool)
    requires AllWell(hw) && w.ok
    ensures Lamp(hw, w, s, green).ok
  {
    hide Do, AllWell;
    DoSucceeds(hw, w, Light(s, green));
  }

  lemma SoundSucceeds(hw: Hw, w: Work, t: Timing, ready: bool, now: Time)
    requires AllWell(hw) && w.ok
    ensures Sound(hw, w, t, ready, now).ok
  {
    hide Do, AllWell;
    var c := Pulse(w.ctl, t, ready, now);
    DoSucceeds(hw, w.(ctl := c), Buzz(c.buzzerUntil.Some? && now < c.buzzerUntil.value));
  }

  lemma ReconcileSucceeds(hw: Hw, t: Timing, w: Work, desired: Outputs, p: Position, now: Time)
    requires AllWell(hw) && w.ok
    ensures Reconcile(hw, t, w, desired, p, now).ok
  {
    hide Request, Lamp, Sound, AllWell;
    RequestSucceeds(hw, w, EntrySide, desired.entryOpen, now);
    var w1 := Request(hw, w, EntrySide, desired.entryOpen, now);
    RequestSucceeds(hw, w1, ExitSide, desired.exitOpen, now);
    var w2 := Requested(hw, w, desired, now);
    LampSucceeds(hw, w2, EntrySide, GreenWanted(desired, p, EntrySide));
    LampSucceeds(hw, Lamp(hw, w2, EntrySide, GreenWanted(desired, p, EntrySide)), ExitSide, GreenWanted(desired, p, ExitSide));
    SoundSucceeds(hw, Lamps(hw, w2, desired, p), t, BuzzerReady(desired, p), now);
  }

  lemma SafeSucceeds(hw: Hw, r: Rig)
    requires AllWell(hw)
    ensures SafeState(hw, r).ok
  {
    hide WriteAll;
    WorkingWrites(hw, r, SAFE_PUTS);
  }

  /** With working hardware and audit every poll that reads its inputs, and whose position the workflow takes, ends without an
      error, and the coils then show exactly what is wanted: requests as desired, green only with feedback, the buzzer during its
      pulse, and nothing but red on contradictory feedback. */
  lemma WorkingPollDelivers(hw: Hw, t: Timing, c: Ctl, r: Rig, poll: Poll)
    requires Distinct(hw.m) && ControlInv(hw, c, r, false) && AllWell(hw) && poll.inputs.Some? && poll.seen
    ensures var w := PollOnce(hw, t, c, r, poll);
            var c0 := if c.safe then c else Rested(c);
            && w.ok
            && Agrees(hw.m, if Contradictory(poll.inputs.value) then ALL_OFF
                            else Target(t, c0, poll.desired, poll.inputs.value, poll.now), w.rig.on)
  {
    hide PollOnce, Agrees, ControlInv;
    PollKeeps(hw, t, c, r, poll, false);
    PollSucceeds(hw, t, c, r, poll);
    Delivered(hw, t, c, PollOnce(hw, t, c, r, poll), poll);
  }

  lemma PollSucceeds(hw: Hw, t: Timing, c: Ctl, r: Rig, poll: Poll)
    requires AllWell(hw) && poll.inputs.Some? && poll.seen
    ensures PollOnce(hw, t, c, r, poll).ok
  {
    hide SafeState, Reconcile, AllWell;
    SafeSucceeds(hw, r);
    var b, p := Begin(hw, c, r, poll.inputs), poll.inputs.value;
    ReconcileSucceeds(hw, t, b, poll.desired, p, poll.now);
    var r1 := if Contradicts(p, EntrySide) then Tell(b.rig, ContradictionFault(EntrySide)) else b.rig;
    SafeSucceeds(hw, if Contradicts(p, ExitSide) then Tell(r1, ContradictionFault(ExitSide)) else r1);
  }

  lemma Delivered(hw: Hw, t: Timing, c: Ctl, w: Work, poll: Poll)
    requires WorkInv(hw, w, false) && w.ok && poll.inputs.Some?
    requires var c0, p := if c.safe then c else Rested(c).(safe := true), poll.inputs.value;
             w.ctl == if Contradictory(p) then Rested(c0) else Settled(t, c0, poll.desired, p, poll.now)
    ensures var c0 := if c.safe then c else Rested(c);
            Agrees(hw.m, if Contradictory(poll.inputs.value) then ALL_OFF
                         else Target(t, c0, poll.desired, poll.inputs.value, poll.now), w.rig.on)
  {
    hide Agrees;
  }

  // ---------- nothing desired, nothing permitted ----------

  /** From a to b nothing permissive was written, and no permissive coil came on. */
  ghost predicate Restrained(m: Mapping, a: Rig, b: Rig) {
    && a.story <= b.story
    && (forall c: Coil {:trigger Lit(m, b.on, c)} :: !c.Red? && Lit(m, b.on, c) ==> Lit(m, a.on, c))
    && forall i {:trigger b.story[i]} :: |a.story| <= i < |b.story| && b.story[i].Wrote? && b.story[i].put.value ==>
         b.story[i].put.coil.Red?
  }

  lemma RestrainedTrans(m: Mapping, a: Rig, b: Rig, c: Rig)
    requires Restrained(m, a, b) && Restrained(m, b, c)
    ensures Restrained(m, a, c)
  {
  }

  lemma {:induction false} RestrainedWrites(hw: Hw, r: Rig, puts: seq<Put>)
    requires Distinct(hw.m) && forall i :: 0 <= i < |puts| ==> puts[i].coil.Red? || !puts[i].value
    ensures Restrained(hw.m, r, WriteAll(hw, r, puts).rig)
    decreases |puts|
  {
    if puts != [] {
      var d := WriteCoil(hw, r, puts[0]);
      FlipLit(hw.m, r.on, puts[0]);
      if d.ok {
        RestrainedWrites(hw, d.rig, puts[1..]);
        RestrainedTrans(hw.m, r, d.rig, WriteAll(hw, d.rig, puts[1..]).rig);
      }
    }
  }

  lemma RestrainedNote(hw: Hw, a: Rig, r: Rig, b: Beat)
    requires Restrained(hw.m, a, r) && !b.Wrote?
    ensures Restrained(hw.m, a, Note(hw, r, b).rig)
  {
  }

  lemma RestrainedDo(hw: Hw, a: Rig, w: Work, cmd: Command)
    requires Distinct(hw.m) && Restrained(hw.m, a, w.rig) && !cmd.on
    ensures Restrained(hw.m, a, Do(hw, w, cmd).rig)
  {
    hide WriteAll, Note, Lit;
    if w.ok {
      RestrainedWrites(hw, w.rig, PutsOf(cmd));
      var d := WriteAll(hw, w.rig, PutsOf(cmd));
      RestrainedTrans(hw.m, a, w.rig, d.rig);
      RestrainedNote(hw, a, d.rig, Result(cmd, d.ok));
      var e := Perform(hw, w.rig, cmd);
      assert Restrained(hw.m, a, e.rig);
      assert Restrained(hw.m, a, Tell(e.rig, OUTPUT_FAILED));
    }
  }

  lemma RestrainedSafe(hw: Hw, a: Rig, r: Rig)
    requires Distinct(hw.m) && Restrained(hw.m, a, r)
    ensures Restrained(hw.m, a, SafeState(hw, r).rig)
  {
    hide WriteAll, Note, Lit;
    RestrainedWrites(hw, r, SAFE_PUTS);
    var d := WriteAll(hw, r, SAFE_PUTS);
    RestrainedTrans(hw.m, a, r, d.rig);
    RestrainedNote(hw, a, d.rig, SafeNoted);
  }

  lemma RestrainedReconcile(hw: Hw, t: Timing, a: Rig, w: Work, p: Position, now: Time)
    requires Distinct(hw.m) && Restrained(hw.m, a, w.rig)
    ensures Restrained(hw.m, a, Reconcile(hw, t, w, ALL_OFF, p, now).rig)
  {
    hide Do, Request, Restrained;
    RestrainedRequest(hw, a, w, EntrySide, now);
    var w1 := Request(hw, w, EntrySide, false, now);
    RestrainedRequest(hw, a, w1, ExitSide, now);
    var w2 := Request(hw, w1, ExitSide, false, now);
    RestrainedDo(hw, a, w2, Light(EntrySide, false));
    var w3 := Lamp(hw, w2, EntrySide, false);
    RestrainedDo(hw, a, w3, Light(ExitSide, false));
    var w4 := Lamp(hw, w3, ExitSide, false);
    assert !BuzzerReady(ALL_OFF, p);
    RestrainedDo(hw, a, w4.(ctl := Pulse(w4.ctl, t, false, now)), Buzz(false));
    var w5 := Sound(hw, w4, t, false, now);
    assert Restrained(hw.m, a, w5.rig);
    assert Confirmed(w5, t, ALL_OFF, p, now) == w5;
  }

  lemma RestrainedRequest(hw: Hw, a: Rig, w: Work, s: Side, now: Time)
    requires Distinct(hw.m) && Restrained(hw.m, a, w.rig)
    ensures Restrained(hw.m, a, Request(hw, w, s, false, now).rig)
  {
    hide Do, Restrained;
    RestrainedDo(hw, a, w, Light(s, false));
    RestrainedDo(hw, a, w, Barrier(s, false));
    RestrainedDo(hw, a, Do(hw, w, Light(s, false)), Barrier(s, false));
  }

  lemma RestrainedBegin(hw: Hw, c: Ctl, r: Rig, inputs: Option<Position>)
    requires Distinct(hw.m)
    ensures Restrained(hw.m, r, Begin(hw, c, r, inputs).rig)
  {
    hide SafeState;
    RestrainedSafe(hw, r, r);
  }

  lemma RestrainedPoll(hw: Hw, t: Timing, c: Ctl, r: Rig, poll: Poll)
    requires Distinct(hw.m) && poll.desired == ALL_OFF
    ensures Restrained(hw.m, r, PollOnce(hw, t, c, r, poll).rig)
  {
    hide SafeState, Contradicted, Reconcile, Restrained;
    var b := Begin(hw, c, r, poll.inputs);
    RestrainedBegin(hw, c, r, poll.inputs);
    if b.ok && poll.seen {
      var p := poll.inputs.value;
      if Contradictory(p) {
        RestrainedContradicted(hw, r, b, p);
      } else {
        RestrainedReconcile(hw, t, r, b, p, poll.now);
      }
    }
  }

  lemma RestrainedContradicted(hw: Hw, a: Rig, w: Work, p: Position)
    requires Distinct(hw.m) && Restrained(hw.m, a, w.rig)
    ensures Restrained(hw.m, a, Contradicted(hw, w, p).rig)
  {
    hide SafeState;
    var r1 := if Contradicts(p, EntrySide) then Tell(w.rig, ContradictionFault(EntrySide)) else w.rig;
    var r2 := if Contradicts(p, ExitSide) then Tell(r1, ContradictionFault(ExitSide)) else r1;
    RestrainedSafe(hw, a, r2);
    assert Restrained(hw.m, a, Tell(SafeState(hw, r2).rig, OUTPUT_FAILED));
  }

  /** A poll that ends with nothing desired writes nothing permissive, whatever fails, and if it returns without an error every
      permissive coil is off. */
  lemma NothingDesiredNothingPermitted(hw: Hw, t: Timing, c: Ctl, r: Rig, poll: Poll)
    requires Distinct(hw.m) && ControlInv(hw, c, r, true) && poll.desired == ALL_OFF
    ensures var w := PollOnce(hw, t, c, r, poll);
            && Restrained(hw.m, r, w.rig)
            && (w.ok ==> forall coil {:trigger Lit(hw.m, w.rig.on, coil)} :: Lit(hw.m, w.rig.on, coil) <==> coil.Red?)
  {
    hide PollOnce, Restrained;
    RestrainedPoll(hw, t, c, r, poll);
    PollKeeps(hw, t, c, r, poll, true);
    var w := PollOnce(hw, t, c, r, poll);
    if w.ok { AgreesWithNothing(hw.m, w.ctl.applied, w.rig.on); }
  }

  lemma AgreesWithNothing(m: Mapping, o: Outputs, on: set<nat>)
    requires Agrees(m, o, on) && o == ALL_OFF
    ensures forall coil {:trigger Lit(m, on, coil)} :: Lit(m, on, coil) <==> coil.Red?
  {
    forall coil ensures Lit(m, on, coil) <==> coil.Red? {
      match coil
      case Red(s) => case Green(s) => case OpenRequest(s) => case Horn =>
    }
  }

  // ---------- timing ----------

  /** Every poll of the run returned without an error. */
  ghost predicate AllNil(hw: Hw, t: Timing, c: Ctl, r: Rig, polls: seq<Poll>) {
    forall k {:trigger polls[..k]} :: 0 < k <= |polls| ==> PollAll(hw, t, c, r, polls[..k]).ok
  }

  lemma AllNilInit(hw: Hw, t: Timing, c: Ctl, r: Rig, polls: seq<Poll>)
    requires AllNil(hw, t, c, r, polls) && polls != []
    ensures AllNil(hw, t, c, r, polls[..|polls| - 1]) && PollAll(hw, t, c, r, polls).ok
  {
    hide PollAll;
    var init := polls[..|polls| - 1];
    forall k | 0 < k <= |init| ensures PollAll(hw, t, c, r, init[..k]).ok {
      assert init[..k] == polls[..k];
    }
    assert polls[..|polls|] == polls;
  }

  predicate Ready(poll: Poll) {
    poll.inputs.Some? && !Contradictory(poll.inputs.value) && BuzzerReady(poll.desired, poll.inputs.value)
  }

  /** The controller was not ready before: it rested, or its last reconciliation was not ready. */
  predicate Silent(c: Ctl) {
    !c.safe || !c.lastReady
  }

  lemma ReadyStep(hw: Hw, t: Timing, c: Ctl, r: Rig, poll: Poll)
    requires Distinct(hw.m) && ControlInv(hw, c, r, false) && Ready(poll) && PollOnce(hw, t, c, r, poll).ok
    ensures var w := PollOnce(hw, t, c, r, poll);
            && w.ctl.safe && w.ctl.lastReady
            && w.ctl.buzzerUntil == (if Silent(c) then Some(poll.now + t.pulse) else c.buzzerUntil)
            && (Lit(hw.m, w.rig.on, Horn) <==> w.ctl.buzzerUntil.Some? && poll.now < w.ctl.buzzerUntil.value)
  {
    hide PollOnce;
    PollKeeps(hw, t, c, r, poll, false);
  }

  /** Over a run of ready polls that starts on a rising edge the buzzer is on exactly until the pulse after the edge is over:
      one pulse, never retriggered. */
  lemma {:induction false} OnePulse(hw: Hw, t: Timing, c: Ctl, r: Rig, polls: seq<Poll>)
    requires Distinct(hw.m) && ControlInv(hw, c, r, false) && Silent(c) && polls != [] && AllNil(hw, t, c, r, polls)
    requires forall i :: 0 <= i < |polls| ==> Ready(polls[i])
    ensures var w := PollAll(hw, t, c, r, polls);
            && w.ctl.safe && w.ctl.lastReady && w.ctl.buzzerUntil == Some(polls[0].now + t.pulse)
            && (Lit(hw.m, w.rig.on, Horn) <==> polls[|polls| - 1].now < polls[0].now + t.pulse)
  {
    hide PollOnce;
    var n := |polls| - 1;
    var init := polls[..n];
    var w := PollAll(hw, t, c, r, init);
    AllNilInit(hw, t, c, r, polls);
    SafeAppliedMeansKnown(hw, t, c, r, init);
    if n > 0 { OnePulse(hw, t, c, r, init); }
    ReadyStep(hw, t, w.ctl, w.rig, polls[n]);
  }

  /** A poll without an error that is not ready silences the buzzer and arms the next edge. */
  lemma NotReadyIsSilent(hw: Hw, t: Timing, c: Ctl, r: Rig, poll: Poll)
    requires Distinct(hw.m) && ControlInv(hw, c, r, false) && PollOnce(hw, t, c, r, poll).ok && !Ready(poll)
    ensures var w := PollOnce(hw, t, c, r, poll); !Lit(hw.m, w.rig.on, Horn) && Silent(w.ctl)
  {
    PollKeeps(hw, t, c, r, poll, false);
  }

  /** The side's barrier is requested open throughout. */
  predicate Holding(poll: Poll, s: Side) {
    poll.inputs.Some? && !Contradictory(poll.inputs.value) && OpenOf(poll.desired, s)
  }

  predicate Confirmation(polls: seq<Poll>, s: Side) {
    exists i :: 0 <= i < |polls| && polls[i].inputs.Some? && Feedback(polls[i].inputs.value, s)
  }

  lemma ConfirmationLast(polls: seq<Poll>, s: Side)
    requires polls != []
    ensures var n := |polls| - 1;
            Confirmation(polls, s) <==> Confirmation(polls[..n], s) || (polls[n].inputs.Some? && Feedback(polls[n].inputs.value, s))
  {
    var n := |polls| - 1;
    if Confirmation(polls, s) {
      var i :| 0 <= i < |polls| && polls[i].inputs.Some? && Feedback(polls[i].inputs.value, s);
      if i < n { assert polls[..n][i] == polls[i]; }
    }
    if Confirmation(polls[..n], s) {
      var i :| 0 <= i < n && polls[..n][i].inputs.Some? && Feedback(polls[..n][i].inputs.value, s);
      assert polls[i] == polls[..n][i];
    }
  }

  /** The timer of a request runs from the poll that made it until the first open feedback, for good. */
  lemma {:induction false} TimerRuns(hw: Hw, t: Timing, c: Ctl, r: Rig, polls: seq<Poll>, s: Side)
    requires Distinct(hw.m) && ControlInv(hw, c, r, false) && (c.safe ==> !OpenOf(c.applied, s))
    requires polls != [] && AllNil(hw, t, c, r, polls) && forall i :: 0 <= i < |polls| ==> Holding(polls[i], s)
    ensures var w := PollAll(hw, t, c, r, polls);
            && w.ctl.safe && OpenOf(w.ctl.applied, s)
            && SinceOf(w.ctl, s) == if Confirmation(polls, s) then None else Some(polls[0].now)
  {
    hide PollOnce, Distinct, Agrees, RigOK;
    var n := |polls| - 1;
    var w := PollAll(hw, t, c, r, polls[..n]);
    AllNilInit(hw, t, c, r, polls);
    SafeAppliedMeansKnown(hw, t, c, r, polls[..n]);
    if n > 0 { TimerRuns(hw, t, c, r, polls[..n], s); }
    PollKeeps(hw, t, w.ctl, w.rig, polls[n], false);
    ConfirmationLast(polls, s);
  }

  /** A report of a critical fault of this device, which no override can bridge. */
  predicate Blocks(e: Event, d: Device) {
    e.SetFault? && e.f.device == d && e.f.critical && !e.f.overridable
  }

  /** Such a report of the side's barrier. */
  predicate Blocked(e: Event, s: Side) {
    Blocks(e, if s == EntrySide then EntryBarrier else ExitBarrier)
  }

  /** From a to b the workflow was told of no critical fault of the side's barrier. */
  ghost predicate Untold(a: Rig, b: Rig, s: Side) {
    a.calls <= b.calls && forall i {:trigger b.calls[i]} :: |a.calls| <= i < |b.calls| ==> !Blocked(b.calls[i], s)
  }

  lemma UntoldTell(a: Rig, r: Rig, e: Event, s: Side)
    requires Untold(a, r, s) && !Blocked(e, s)
    ensures Untold(a, Tell(r, e), s)
  {
  }

  lemma UntoldNote(hw: Hw, a: Rig, r: Rig, b: Beat, s: Side)
    requires Untold(a, r, s)
    ensures Untold(a, Note(hw, r, b).rig, s)
  {
  }

  lemma UntoldWrites(hw: Hw, a: Rig, r: Rig, puts: seq<Put>, s: Side)
    requires Untold(a, r, s)
    ensures Untold(a, WriteAll(hw, r, puts).rig, s)
  {
    hide WriteAll;
    WriteAllFrame(hw, r, puts);
  }

  lemma UntoldExecute(hw: Hw, a: Rig, r: Rig, cmd: Command, s: Side)
    requires Untold(a, r, s)
    ensures Untold(a, Execute(hw, r, cmd).rig, s)
  {
    hide WriteAll, Note, Untold;
    UntoldWrites(hw, a, r, PutsOf(cmd), s);
    var d := WriteAll(hw, r, PutsOf(cmd));
    UntoldNote(hw, a, d.rig, Result(cmd, d.ok), s);
  }

  lemma UntoldPerform(hw: Hw, a: Rig, r: Rig, cmd: Command, s: Side)
    requires Untold(a, r, s)
    ensures Untold(a, Perform(hw, r, cmd).rig, s)
  {
    hide Execute, Note, Untold;
    UntoldNote(hw, a, r, Intent(cmd), s);
    UntoldExecute(hw, a, if cmd.on then Note(hw, r, Intent(cmd)).rig else r, cmd, s);
  }

  lemma UntoldSafe(hw: Hw, a: Rig, r: Rig, s: Side)
    requires Untold(a, r, s)
    ensures Untold(a, SafeState(hw, r).rig, s)
  {
    hide WriteAll, Note;
    UntoldWrites(hw, a, r, SAFE_PUTS, s);
    UntoldNote(hw, a, WriteAll(hw, r, SAFE_PUTS).rig, SafeNoted, s);
  }

  lemma UntoldDo(hw: Hw, a: Rig, w: Work, cmd: Command, s: Side)
    requires Untold(a, w.rig, s)
    ensures Untold(a, Do(hw, w, cmd).rig, s)
  {
    hide Perform, Untold;
    UntoldPerform(hw, a, w.rig, cmd, s);
    UntoldTell(a, Perform(hw, w.rig, cmd).rig, OUTPUT_FAILED, s);
  }

  lemma UntoldRequest(hw: Hw, a: Rig, w: Work, side: Side, want: bool, now: Time, s: Side)
    requires Untold(a, w.rig, s)
    ensures Untold(a, Request(hw, w, side, want, now).rig, s)
  {
    hide Do, Untold;
    UntoldDo(hw, a, w, Light(side, false), s);
    UntoldDo(hw, a, w, Barrier(side, want), s);
    UntoldDo(hw, a, Do(hw, w, Light(side, false)), Barrier(side, want), s);
  }

  lemma UntoldBegin(hw: Hw, c: Ctl, r: Rig, inputs: Option<Position>, s: Side)
    ensures Untold(r, Begin(hw, c, r, inputs).rig, s)
  {
    hide SafeState;
    UntoldSafe(hw, r, r, s);
  }

  lemma UntoldReconcile(hw: Hw, t: Timing, a: Rig, w: Work, desired: Outputs, p: Position, now: Time, s: Side)
    requires Untold(a, w.rig, s)
    ensures var w3 := Sound(hw, Lamps(hw, Requested(hw, w, desired, now), desired, p), t, BuzzerReady(desired, p), now);
            Untold(a, w3.rig, s)
  {
    hide Do, Request, Untold;
    UntoldRequest(hw, a, w, EntrySide, desired.entryOpen, now, s);
    var w1 := Request(hw, w, EntrySide, desired.entryOpen, now);
    UntoldRequest(hw, a, w1, ExitSide, desired.exitOpen, now, s);
    var w2 := Requested(hw, w, desired, now);
    var g, h := GreenWanted(desired, p, EntrySide), GreenWanted(desired, p, ExitSide);
    UntoldDo(hw, a, w2, Light(EntrySide, g), s);
    var w3 := Lamp(hw, w2, EntrySide, g);
    UntoldDo(hw, a, w3, Light(ExitSide, h), s);
    var w4 := Lamp(hw, w3, ExitSide, h);
    var c := Pulse(w4.ctl, t, BuzzerReady(desired, p), now);
    UntoldDo(hw, a, w4.(ctl := c), Buzz(c.buzzerUntil.Some? && now < c.buzzerUntil.value), s);
  }

  predicate TimedOut(c: Ctl, t: Timing, s: Side, desired: Outputs, p: Position, now: Time) {
    OpenOf(desired, s) && !Feedback(p, s) && SinceOf(c, s).Some? && now - SinceOf(c, s).value > t.timeout
  }

  lemma ConfirmTells(a: Rig, w: Work, t: Timing, side: Side, desired: Outputs, p: Position, now: Time, s: Side)
    requires a.calls <= w.rig.calls && w.ok
    ensures var r := Confirm(w, t, side, desired, p, now).rig;
            && a.calls <= r.calls
            && (Untold(a, r, s) <==> Untold(a, w.rig, s) && !(side == s && TimedOut(w.ctl, t, s, desired, p, now)))
  {
    var r := Confirm(w, t, side, desired, p, now).rig;
    var n := |w.rig.calls|;
    if |r.calls| > n { assert r.calls == w.rig.calls + [r.calls[n]]; }
    if Untold(a, r, s) {
      forall i | |a.calls| <= i < n ensures !Blocked(w.rig.calls[i], s) { assert w.rig.calls[i] == r.calls[i]; }
    }
  }

  lemma ToldExactly(a: Rig, w: Work, t: Timing, desired: Outputs, p: Position, now: Time, s: Side)
    requires Untold(a, w.rig, s) && w.ok
    ensures Untold(a, Confirmed(w, t, desired, p, now).rig, s) <==> !TimedOut(w.ctl, t, s, desired, p, now)
  {
    ConfirmTells(a, w, t, EntrySide, desired, p, now, s);
    ConfirmTells(a, Confirm(w, t, EntrySide, desired, p, now), t, ExitSide, desired, p, now, s);
  }

  /** In the last of a run of polls that hold a fresh request, a critical fault of the side's barrier, one no override can bridge, is
      reported exactly when more than the timeout has passed since the request and no poll of the run has seen open feedback: never
      earlier, and not after a confirmation. */
  lemma TimeoutExactly(hw: Hw, t: Timing, c: Ctl, r: Rig, polls: seq<Poll>, s: Side)
    requires Distinct(hw.m) && ControlInv(hw, c, r, false) && (c.safe ==> !OpenOf(c.applied, s))
    requires polls != [] && AllNil(hw, t, c, r, polls) && (forall i :: 0 <= i < |polls| ==> Holding(polls[i], s)) && t.timeout >= 0
    ensures var n := |polls| - 1;
            !Untold(PollAll(hw, t, c, r, polls[..n]).rig, PollAll(hw, t, c, r, polls).rig, s)
            <==> !Confirmation(polls, s) && polls[n].now - polls[0].now > t.timeout
  {
    var n := |polls| - 1;
    var w, poll := PollAll(hw, t, c, r, polls[..n]), polls[n];
    var p := poll.inputs.value;
    AllNilInit(hw, t, c, r, polls);
    TimerRuns(hw, t, c, r, polls, s);
    SafeAppliedMeansKnown(hw, t, c, r, polls[..n]);
    var b := Begin(hw, w.ctl, w.rig, poll.inputs);
    BeginKeeps(hw, w.ctl, w.rig, poll.inputs, false);
    UntoldBegin(hw, w.ctl, w.rig, poll.inputs, s);
    UntoldReconcile(hw, t, w.rig, b, poll.desired, p, poll.now, s);
    var w3 := Sound(hw, Lamps(hw, Requested(hw, b, poll.desired, poll.now), poll.desired, p), t, BuzzerReady(poll.desired, p), poll.now);
    BeforeConfirm(hw, t, b, poll.desired, p, poll.now);
    ToldExactly(w.rig, w3, t, poll.desired, p, poll.now, s);
    assert PollAll(hw, t, c, r, polls) == Confirmed(w3, t, poll.desired, p, poll.now);
    ConfirmationLast(polls, s);
  }

  /** Confirming changes timers only where there is feedback. */
  lemma BeforeConfirm(hw: Hw, t: Timing, b: Work, desired: Outputs, p: Position, now: Time)
    requires Distinct(hw.m) && WorkInv(hw, b, false)
    ensures var w3 := Sound(hw, Lamps(hw, Requested(hw, b, desired, now), desired, p), t, BuzzerReady(desired, p), now);
            var r := Reconcile(hw, t, b, desired, p, now);
            && r.ok == w3.ok
            && forall s: Side :: w3.ok && !(OpenOf(desired, s) && Feedback(p, s)) ==> SinceOf(r.ctl, s) == SinceOf(w3.ctl, s)
  {
    RequestedKeeps(hw, b, desired, now, false);
    var w1 := Requested(hw, b, desired, now);
    if w1.ok { assert OpenOf(w1.ctl.applied, EntrySide) == desired.entryOpen && OpenOf(w1.ctl.applied, ExitSide) == desired.exitOpen; }
    LampsKeep(hw, w1, desired, p, false);
    var w2 := Lamps(hw, w1, desired, p);
    SoundKeeps(hw, w2, t, BuzzerReady(desired, p), now, false);
    ConfirmedKeeps(hw, Sound(hw, w2, t, BuzzerReady(desired, p), now), t, desired, p, now, false);
  }
}
