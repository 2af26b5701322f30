/**
 What a poll reports to the workflow, device by device, told from what happened: the inputs it could not read, the writes that were not
 acknowledged, the appends that failed, the feedback that contradicts itself or does not come.
 */
module Reports {
  import opened Domain
  import opened EngineSpec
  import opened RemoteOutputs
  import opened RemoteOutputsProofs
  import opened Control
  import opened ControlProofs

  // ---------- the last word about a device ----------

  /** The call sets or clears a fault of this device. */
  predicate Touches(e: Event, d: Device) {
    (e.SetFault? && e.f.device == d) || (e.ClearFault? && e.d == d)
  }

  /** The last of these calls about this device. */
  function LastWord(calls: seq<Event>, d: Device): (r: Option<Event>)
    ensures r.Some? ==> Touches(r.value, d)
  {
    if calls == [] then None
    else
      var n := |calls| - 1;
      if Touches(calls[n], d) then Some(calls[n]) else LastWord(calls[..n], d)
  }

  lemma WordAdded(calls: seq<Event>, e: Event, d: Device)
    ensures LastWord(calls + [e], d) == if Touches(e, d) then Some(e) else LastWord(calls, d)
  {
    assert (calls + [e])[..|calls|] == calls;
  }

  lemma {:induction false} WordIsThere(calls: seq<Event>, i: nat, d: Device)
    requires i < |calls| && Touches(calls[i], d)
    ensures LastWord(calls, d).Some?
  {
    var n := |calls| - 1;
    if i < n { WordIsThere(calls[..n], i, d); }
  }

  lemma {:induction false} WordHasItsCall(calls: seq<Event>, d: Device)
    requires LastWord(calls, d).Some?
    ensures exists i :: 0 <= i < |calls| && calls[i] == LastWord(calls, d).value
  {
    var n := |calls| - 1;
    if !Touches(calls[n], d) {
      WordHasItsCall(calls[..n], d);
      var i :| 0 <= i < n && calls[..n][i] == LastWord(calls[..n], d).value;
      assert calls[i] == calls[..n][i];
    }
  }

  /** The last word is a critical fault that no override can bridge. */
  predicate Condemned(word: Option<Event>, d: Device) {
    word.Some? && Blocks(word.value, d)
  }

  // ---------- what was said between two rigs ----------

  /** What the workflow was told from a to b, and what was written and noted. */
  function Said(a: Rig, b: Rig): seq<Event> {
    if |a.calls| <= |b.calls| then b.calls[|a.calls|..] else []
  }

  /** Only faults are set and cleared. */
  predicate Plain(calls: seq<Event>) {
    forall i :: 0 <= i < |calls| ==> calls[i].SetFault? || calls[i].ClearFault?
  }

  function Done(a: Rig, b: Rig): seq<Beat> {
    if |a.story| <= |b.story| then b.story[|a.story|..] else []
  }

  predicate Later(a: Rig, b: Rig) {
    a.calls <= b.calls && a.story <= b.story
  }

  /** Some write was not acknowledged. */
  predicate Failed(story: seq<Beat>) {
    exists i :: 0 <= i < |story| && story[i].Wrote? && !story[i].acked
  }

  /** From a to b these were the last words about the barriers and the outputs, and about the audit exactly if an append failed. */
  predicate Words(a: Rig, b: Rig, entry: Option<Event>, exit: Option<Event>, io: Option<Event>) {
    && Later(a, b)
    && Plain(Said(a, b))
    && LastWord(Said(a, b), EntryBarrier) == entry && LastWord(Said(a, b), ExitBarrier) == exit
    && LastWord(Said(a, b), RemoteIO) == io
    && (Unrecorded in Done(a, b) <==> LastWord(Said(a, b), AuditStore).Some?)
    && (Unrecorded in Done(a, b) ==> Condemned(LastWord(Said(a, b), AuditStore), AuditStore))
  }

  lemma NothingSaid(a: Rig)
    ensures Words(a, a, None, None, None)
  {
  }

  lemma WordsTell(a: Rig, r: Rig, e: Event, entry: Option<Event>, exit: Option<Event>, io: Option<Event>)
    requires Words(a, r, entry, exit, io) && !Touches(e, AuditStore) && (e.SetFault? || e.ClearFault?)
    ensures Words(a, Tell(r, e), if Touches(e, EntryBarrier) then Some(e) else entry,
                  if Touches(e, ExitBarrier) then Some(e) else exit, if Touches(e, RemoteIO) then Some(e) else io)
    ensures Done(a, Tell(r, e)) == Done(a, r)
  {
    hide LastWord, Touches;
    assert Said(a, Tell(r, e)) == Said(a, r) + [e];
    WordAdded(Said(a, r), e, EntryBarrier);
    WordAdded(Said(a, r), e, ExitBarrier);
    WordAdded(Said(a, r), e, RemoteIO);
    WordAdded(Said(a, r), e, AuditStore);
  }

  /** The appends and writes of a command say nothing about the barriers and the outputs. */
  lemma WordsNote(hw: Hw, a: Rig, r: Rig, b: Beat, entry: Option<Event>, exit: Option<Event>, io: Option<Event>)
    requires Words(a, r, entry, exit, io) && b != Unrecorded && !b.Wrote?
    ensures Words(a, Note(hw, r, b).rig, entry, exit, io)
    ensures Failed(Done(a, Note(hw, r, b).rig)) == Failed(Done(a, r))
  {
    hide LastWord;
    var n := Note(hw, r, b).rig;
    var beat := n.story[|r.story|];
    assert Done(a, n) == Done(a, r) + [beat];
    FailedAdded(Done(a, r), beat);
    if n.calls != r.calls {
      assert Said(a, n) == Said(a, r) + [AUDIT_FAULT];
      WordAdded(Said(a, r), AUDIT_FAULT, EntryBarrier);
      WordAdded(Said(a, r), AUDIT_FAULT, ExitBarrier);
      WordAdded(Said(a, r), AUDIT_FAULT, RemoteIO);
      WordAdded(Said(a, r), AUDIT_FAULT, AuditStore);
    }
  }

  lemma FailedAdded(story: seq<Beat>, b: Beat)
    ensures Failed(story + [b]) <==> Failed(story) || (b.Wrote? && !b.acked)
  {
    var more := story + [b];
    if i :| 0 <= i < |story| && story[i].Wrote? && !story[i].acked { assert more[i] == story[i]; }
    assert more[|story|] == b;
  }

  lemma {:induction false} WordsWrites(hw: Hw, a: Rig, r: Rig, puts: seq<Put>, entry: Option<Event>, exit: Option<Event>, io: Option<Event>)
    requires Words(a, r, entry, exit, io)
    ensures var d := WriteAll(hw, r, puts);
            Words(a, d.rig, entry, exit, io) && (Failed(Done(a, d.rig)) <==> Failed(Done(a, r)) || !d.ok)
    decreases |puts|
  {
    hide LastWord, Failed;
    if puts != [] {
      var d := WriteCoil(hw, r, puts[0]);
      var beat := d.rig.story[|r.story|];
      assert Done(a, d.rig) == Done(a, r) + [beat];
      FailedAdded(Done(a, r), beat);
      assert Said(a, d.rig) == Said(a, r);
      if d.ok { WordsWrites(hw, a, d.rig, puts[1..], entry, exit, io); }
    }
  }

  /** A command that succeeds had every write acknowledged, and a permissive one had its intent and its result recorded. */
  lemma WordsPerform(hw: Hw, a: Rig, r: Rig, cmd: Command, entry: Option<Event>, exit: Option<Event>, io: Option<Event>)
    requires Words(a, r, entry, exit, io)
    ensures var d := Perform(hw, r, cmd);
            Words(a, d.rig, entry, exit, io) && (d.ok ==> (Failed(Done(a, d.rig)) <==> Failed(Done(a, r))))
  {
    hide WriteAll, Note, Words, Failed;
    if cmd.on { WordsNote(hw, a, r, Intent(cmd), entry, exit, io); }
    var r1 := if cmd.on then Note(hw, r, Intent(cmd)).rig else r;
    WordsWrites(hw, a, r1, PutsOf(cmd), entry, exit, io);
    var d := WriteAll(hw, r1, PutsOf(cmd));
    WordsNote(hw, a, d.rig, Result(cmd, d.ok), entry, exit, io);
  }

  /** A command succeeds exactly when every write of it was acknowledged and, if it is permissive, every append of it succeeded. */
  lemma PerformExactly(hw: Hw, r: Rig, cmd: Command)
    ensures var d := Perform(hw, r, cmd); var done := Done(r, d.rig);
            && Later(r, d.rig)
            && (d.ok <==> !Failed(done) && (cmd.on ==> Unrecorded !in done))
            && (cmd.on && done != [] && done[0] == Unrecorded ==> d.rig.on == r.on && done == [Unrecorded])
            && (d.ok && cmd.on ==> done[0] == Intent(cmd) && done[|done| - 1] == Result(cmd, true))
  {
    hide WriteAll, Failed;
    NotFailedYet(r);
    var n := Note(hw, r, Intent(cmd));
    if !cmd.on || n.ok {
      var r1 := if cmd.on then n.rig else r;
      if cmd.on { FailedAdded([], Intent(cmd)); assert Done(r, r1) == [] + [Intent(cmd)]; }
      NothingSaid(r1);
      NotFailedYet(r1);
      WritesDone(hw, r, r1, PutsOf(cmd));
      var d := WriteAll(hw, r1, PutsOf(cmd));
      var beat := Note(hw, d.rig, Result(cmd, d.ok)).rig.story[|d.rig.story|];
      FailedAdded(Done(r, d.rig), beat);
      assert Done(r, Perform(hw, r, cmd).rig) == Done(r, d.rig) + [beat];
    } else {
      FailedAdded([], Unrecorded);
      assert Done(r, n.rig) == [] + [Unrecorded];
    }
  }

  /** Writes add only writes to the story, and fail exactly if the last of them is not acknowledged. */
  lemma {:induction false} WritesDone(hw: Hw, a: Rig, r: Rig, puts: seq<Put>)
    requires Later(a, r)
    ensures var d := WriteAll(hw, r, puts);
            && Later(a, d.rig) && Done(a, r) <= Done(a, d.rig) && (Unrecorded in Done(a, d.rig) <==> Unrecorded in Done(a, r))
            && (Failed(Done(a, d.rig)) <==> Failed(Done(a, r)) || !d.ok)
    decreases |puts|
  {
    hide Failed;
    if puts != [] {
      var d := WriteCoil(hw, r, puts[0]);
      var beat := d.rig.story[|r.story|];
      assert Done(a, d.rig) == Done(a, r) + [beat];
      FailedAdded(Done(a, r), beat);
      if d.ok { WritesDone(hw, a, d.rig, puts[1..]); }
    }
  }

  lemma WordsSafe(hw: Hw, a: Rig, r: Rig, entry: Option<Event>, exit: Option<Event>, io: Option<Event>)
    requires Words(a, r, entry, exit, io)
    ensures var d := SafeState(hw, r);
            Words(a, d.rig, entry, exit, io) && (Failed(Done(a, d.rig)) <==> Failed(Done(a, r)) || !d.ok)
  {
    hide WriteAll, Note, Words, Failed;
    WordsWrites(hw, a, r, SAFE_PUTS, entry, exit, io);
    var d := WriteAll(hw, r, SAFE_PUTS);
    WordsNote(hw, a, d.rig, SafeNoted, entry, exit, io);
    assert d.ok ==> Same(a, SafeState(hw, r).rig, Note(hw, d.rig, SafeNoted).rig, entry, exit, io) by {
      SameWords(a, SafeState(hw, r).rig, Note(hw, d.rig, SafeNoted).rig, entry, exit, io);
    }
  }

  /** Only the calls and the story matter. */
  predicate Same(a: Rig, b: Rig, c: Rig, entry: Option<Event>, exit: Option<Event>, io: Option<Event>) {
    b.calls == c.calls && b.story == c.story ==> (Words(a, b, entry, exit, io) <==> Words(a, c, entry, exit, io)) && Done(a, b) == Done(a, c)
  }

  lemma SameWords(a: Rig, b: Rig, c: Rig, entry: Option<Event>, exit: Option<Event>, io: Option<Event>)
    ensures Same(a, b, c, entry, exit, io)
  {
  }

  // ---------- a poll under way ----------

  /** The last word about the outputs: none while all goes well, and a critical fault once a phase has failed. */
  predicate OutputsWord(w: Work, io: Option<Event>, failed: bool) {
    if w.ok then io.None? && !failed else Condemned(io, RemoteIO) && !w.ctl.safe
  }

  /** From a on nothing was said of the barriers but this, and of the outputs what became of them. */
  ghost predicate Speaks(a: Rig, w: Work, entry: Option<Event>, exit: Option<Event>) {
    exists io :: Words(a, w.rig, entry, exit, io) && OutputsWord(w, io, Failed(Done(a, w.rig)))
  }

  lemma SpeaksIoFault(a: Rig, w: Work, entry: Option<Event>, exit: Option<Event>, io: Option<Event>)
    requires Words(a, w.rig, entry, exit, io)
    ensures Speaks(a, IoFault(w), entry, exit)
  {
    hide Words, Failed;
    WordsTell(a, w.rig, OUTPUT_FAILED, entry, exit, io);
    assert Words(a, IoFault(w).rig, entry, exit, Some(OUTPUT_FAILED));
  }

  lemma SpeaksDo(hw: Hw, a: Rig, w: Work, cmd: Command, entry: Option<Event>, exit: Option<Event>)
    requires Speaks(a, w, entry, exit)
    ensures Speaks(a, Do(hw, w, cmd), entry, exit)
  {
    hide Perform, Words, Failed, IoFault;
    if w.ok {
      var io :| Words(a, w.rig, entry, exit, io) && OutputsWord(w, io, Failed(Done(a, w.rig)));
      WordsPerform(hw, a, w.rig, cmd, entry, exit, io);
      var d := Perform(hw, w.rig, cmd);
      SpeaksIoFault(a, Work(w.ctl, d.rig, false), entry, exit, io);
    }
  }

  /** Steps that say nothing and leave the outputs alone. */
  lemma SpeaksOn(a: Rig, w: Work, v: Work, entry: Option<Event>, exit: Option<Event>)
    requires Speaks(a, w, entry, exit) && v.rig == w.rig && v.ok == w.ok && v.ctl.safe == w.ctl.safe
    ensures Speaks(a, v, entry, exit)
  {
    hide Words, Failed;
    var io :| Words(a, w.rig, entry, exit, io) && OutputsWord(w, io, Failed(Done(a, w.rig)));
    assert OutputsWord(v, io, Failed(Done(a, v.rig)));
  }

  lemma SpeaksRequest(hw: Hw, a: Rig, w: Work, s: Side, want: bool, now: Time, entry: Option<Event>, exit: Option<Event>)
    requires Speaks(a, w, entry, exit)
    ensures Speaks(a, Request(hw, w, s, want, now), entry, exit)
  {
    hide Do, Speaks;
    SpeaksDo(hw, a, w, Light(s, false), entry, exit);
    var w1 := if !want && GreenOf(w.ctl.applied, s) then Do(hw, w, Light(s, false)) else w;
    SpeaksDo(hw, a, w1, Barrier(s, want), entry, exit);
    SpeaksOn(a, Do(hw, w1, Barrier(s, want)), Do(hw, w1, Barrier(s, want)), entry, exit);
    var w2 := Do(hw, w1, Barrier(s, want));
    SpeaksOn(a, w2, w2.(ctl := WithSince(w2.ctl, s, if want then Some(now) else None)), entry, exit);
  }

  /** Before the barriers are confirmed a reconciliation has said nothing of them. */
  lemma SpeaksReconcile(hw: Hw, t: Timing, a: Rig, w: Work, desired: Outputs, p: Position, now: Time)
    requires Speaks(a, w, None, None)
    ensures var w3 := Sound(hw, Lamps(hw, Requested(hw, w, desired, now), desired, p), t, BuzzerReady(desired, p), now);
            Speaks(a, w3, None, None)
  {
    hide Do, Request, Speaks;
    SpeaksRequest(hw, a, w, EntrySide, desired.entryOpen, now, None, None);
    SpeaksRequest(hw, a, Request(hw, w, EntrySide, desired.entryOpen, now), ExitSide, desired.exitOpen, now, None, None);
    var w2 := Requested(hw, w, desired, now);
    var g, h := GreenWanted(desired, p, EntrySide), GreenWanted(desired, p, ExitSide);
    SpeaksDo(hw, a, w2, Light(EntrySide, g), None, None);
    SpeaksDo(hw, a, Lamp(hw, w2, EntrySide, g), Light(ExitSide, h), None, None);
    var w4 := Lamps(hw, w2, desired, p);
    var c := Pulse(w4.ctl, t, BuzzerReady(desired, p), now);
    SpeaksOn(a, w4, w4.(ctl := c), None, None);
    SpeaksDo(hw, a, w4.(ctl := c), Buzz(c.buzzerUntil.Some? && now < c.buzzerUntil.value), None, None);
  }

  // ---------- what each barrier's last word is ----------

  /** A side's last word after confirming: cleared on feedback, condemned when its time is up, nothing otherwise. */
  predicate ConfirmedWord(word: Option<Event>, d: Device, requested: bool, feedback: bool, late: bool) {
    if requested && feedback then word == Some(ClearFault(d))
    else if requested && late then Condemned(word, d)
    else word.None?
  }

  predicate LateOf(c: Ctl, t: Timing, s: Side, now: Time) {
    SinceOf(c, s).Some? && now - SinceOf(c, s).value > t.timeout
  }

  /** What confirming a side says. */
  function ConfirmSays(c: Ctl, t: Timing, s: Side, desired: Outputs, p: Position, now: Time): Option<Event> {
    if !OpenOf(desired, s) then None
    else if Feedback(p, s) then Some(ClearFault(BarrierOf(s)))
    else if LateOf(c, t, s, now) then Some(TimeoutFault(s))
    else None
  }

  lemma ConfirmSaysIt(w: Work, t: Timing, s: Side, desired: Outputs, p: Position, now: Time)
    requires w.ok
    ensures var e, v := ConfirmSays(w.ctl, t, s, desired, p, now), Confirm(w, t, s, desired, p, now);
            && v.ok && v.rig == (if e.Some? then Tell(w.rig, e.value) else w.rig)
            && v.ctl.safe == w.ctl.safe
            && (s == EntrySide ==> ConfirmSays(v.ctl, t, ExitSide, desired, p, now) == ConfirmSays(w.ctl, t, ExitSide, desired, p, now))
            && (e.Some? ==> (e.value.SetFault? || e.value.ClearFault?) && forall d: Device :: Touches(e.value, d) <==> d == BarrierOf(s))
  {
  }

  lemma SaysRightly(c: Ctl, t: Timing, desired: Outputs, p: Position, now: Time)
    ensures ConfirmedWord(ConfirmSays(c, t, EntrySide, desired, p, now), EntryBarrier, desired.entryOpen, p.entryOpen,
                          LateOf(c, t, EntrySide, now))
    ensures ConfirmedWord(ConfirmSays(c, t, ExitSide, desired, p, now), ExitBarrier, desired.exitOpen, p.exitOpen,
                          LateOf(c, t, ExitSide, now))
  {
  }

  lemma WordsConfirmed(a: Rig, w: Work, t: Timing, desired: Outputs, p: Position, now: Time, io: Option<Event>)
    requires Words(a, w.rig, None, None, io) && w.ok
    ensures var v := Confirmed(w, t, desired, p, now);
            && v.ok && v.ctl.safe == w.ctl.safe && Done(a, v.rig) == Done(a, w.rig)
            && Words(a, v.rig, ConfirmSays(w.ctl, t, EntrySide, desired, p, now), ConfirmSays(w.ctl, t, ExitSide, desired, p, now), io)
  {
    hide Words, Confirm, ConfirmSays, Touches;
    var e, x := ConfirmSays(w.ctl, t, EntrySide, desired, p, now), ConfirmSays(w.ctl, t, ExitSide, desired, p, now);
    ConfirmSaysIt(w, t, EntrySide, desired, p, now);
    if e.Some? { WordsTell(a, w.rig, e.value, None, None, io); }
    var w1 := Confirm(w, t, EntrySide, desired, p, now);
    assert Words(a, w1.rig, e, None, io) && Done(a, w1.rig) == Done(a, w.rig);
    ConfirmSaysIt(w1, t, ExitSide, desired, p, now);
    if x.Some? { WordsTell(a, w1.rig, x.value, e, None, io); }
  }

  lemma SpeaksConfirmed(a: Rig, w: Work, t: Timing, desired: Outputs, p: Position, now: Time)
    requires Speaks(a, w, None, None) && w.ok
    ensures exists entry, exit ::
              && Speaks(a, Confirmed(w, t, desired, p, now), entry, exit)
              && ConfirmedWord(entry, EntryBarrier, desired.entryOpen, p.entryOpen, LateOf(w.ctl, t, EntrySide, now))
              && ConfirmedWord(exit, ExitBarrier, desired.exitOpen, p.exitOpen, LateOf(w.ctl, t, ExitSide, now))
  {
    hide Words, Failed, Confirmed, ConfirmSays, ConfirmedWord, LateOf;
    var io :| Words(a, w.rig, None, None, io) && OutputsWord(w, io, Failed(Done(a, w.rig)));
    var e, x := ConfirmSays(w.ctl, t, EntrySide, desired, p, now), ConfirmSays(w.ctl, t, ExitSide, desired, p, now);
    WordsConfirmed(a, w, t, desired, p, now, io);
    SaysRightly(w.ctl, t, desired, p, now);
    assert Speaks(a, Confirmed(w, t, desired, p, now), e, x);
  }

  /** The word on a side with contradictory feedback, and on one without. */
  function ContradictionWord(p: Position, s: Side): Option<Event> {
    if Contradicts(p, s) then Some(ContradictionFault(s)) else None
  }

  function ContradictionsTold(r: Rig, p: Position): Rig {
    var r1 := if Contradicts(p, EntrySide) then Tell(r, ContradictionFault(EntrySide)) else r;
    if Contradicts(p, ExitSide) then Tell(r1, ContradictionFault(ExitSide)) else r1
  }

  lemma WordsContradicted(a: Rig, r: Rig, p: Position, io: Option<Event>)
    requires Words(a, r, None, None, io)
    ensures var r2 := ContradictionsTold(r, p);
            Words(a, r2, ContradictionWord(p, EntrySide), ContradictionWord(p, ExitSide), io) && Done(a, r2) == Done(a, r)
  {
    hide Words;
    var e := ContradictionWord(p, EntrySide);
    if e.Some? { WordsTell(a, r, e.value, None, None, io); }
    var r1 := if e.Some? then Tell(r, e.value) else r;
    assert Words(a, r1, e, None, io) && Done(a, r1) == Done(a, r);
    var x := ContradictionWord(p, ExitSide);
    if x.Some? { WordsTell(a, r1, x.value, e, None, io); }
  }

  /** On contradictory feedback each side that contradicts itself is condemned, and the other is not spoken of. */
  lemma SpeaksContradicted(hw: Hw, a: Rig, w: Work, p: Position)
    requires Speaks(a, w, None, None) && w.ok
    ensures exists entry, exit ::
              && Speaks(a, Contradicted(hw, w, p), entry, exit)
              && (if p.entryOpen && p.entryClosed then Condemned(entry, EntryBarrier) else entry.None?)
              && (if p.exitOpen && p.exitClosed then Condemned(exit, ExitBarrier) else exit.None?)
  {
    var e, x := ContradictionWord(p, EntrySide), ContradictionWord(p, ExitSide);
    ContradictedIsTold(hw, a, w, p);
    assert Speaks(a, Contradicted(hw, w, p), e, x);
  }

  lemma ContradictedIsTold(hw: Hw, a: Rig, w: Work, p: Position)
    requires Speaks(a, w, None, None) && w.ok
    ensures Speaks(a, Contradicted(hw, w, p), ContradictionWord(p, EntrySide), ContradictionWord(p, ExitSide))
  {
    hide Words, Failed, SafeState, ContradictionWord, IoFault;
    var io :| Words(a, w.rig, None, None, io) && OutputsWord(w, io, Failed(Done(a, w.rig)));
    var e, x := ContradictionWord(p, EntrySide), ContradictionWord(p, ExitSide);
    WordsContradicted(a, w.rig, p, io);
    var r2 := ContradictionsTold(w.rig, p);
    WordsSafe(hw, a, r2, e, x, io);
    var d := SafeState(hw, r2);
    SpeaksIoFault(a, Work(w.ctl, d.rig, false), e, x, io);
    if d.ok { assert OutputsWord(Work(Rested(w.ctl), d.rig, true), io, Failed(Done(a, d.rig))); }
  }

  // ---------- a whole poll ----------

  /** Up to its snapshot a poll speaks of no barrier. It ends there with the outputs condemned exactly if its inputs cannot be read, or
      no safe state was in force and a write of establishing one was not acknowledged; otherwise every write was acknowledged and
      it has cleared the outputs' fault. An append that failed condemns the audit. */
  lemma BeginSpeaks(hw: Hw, c: Ctl, r: Rig, inputs: Option<Position>)
    ensures var b := Begin(hw, c, r, inputs); var said, done := Said(r, b.rig), Done(r, b.rig);
            && Later(r, b.rig)
            && (b.ok <==> inputs.Some? && !Failed(done))
            && (if b.ok then said != [] && said[|said| - 1] == SeePosition(inputs.value) && Plain(said[..|said| - 1]) else Plain(said))
            && (if b.ok then LastWord(said, RemoteIO) == Some(ClearFault(RemoteIO)) && b.ctl.safe
                else Condemned(LastWord(said, RemoteIO), RemoteIO) && !b.ctl.safe)
            && LastWord(said, EntryBarrier).None? && LastWord(said, ExitBarrier).None?
            && (Unrecorded in done <==> LastWord(said, AuditStore).Some?)
            && (Unrecorded in done ==> Condemned(LastWord(said, AuditStore), AuditStore))
  {
    hide SafeState, Failed, LastWord;
    NothingSaid(r);
    NotFailedYet(r);
    if inputs.None? {
      WordsTell(r, r, INPUTS_LOST, None, None, None);
    } else {
      var d := if c.safe then Did(r, true) else SafeState(hw, r);
      WordsSafe(hw, r, r, None, None, None);
      assert Words(r, d.rig, None, None, None) && (Failed(Done(r, d.rig)) <==> !d.ok);
      WordsTell(r, d.rig, UNSAFE, None, None, None);
      WordsTell(r, d.rig, ClearFault(RemoteIO), None, None, None);
      PositionTold(r, Tell(d.rig, ClearFault(RemoteIO)), inputs.value);
    }
  }

  lemma PositionTold(a: Rig, r: Rig, p: Position)
    requires Later(a, r)
    ensures var said := Said(a, Tell(r, SeePosition(p)));
            && Later(a, Tell(r, SeePosition(p)))
            && said == Said(a, r) + [SeePosition(p)] && said[..|said| - 1] == Said(a, r)
            && forall d: Device :: LastWord(said, d) == LastWord(Said(a, r), d)
  {
    hide LastWord;
    assert Said(a, Tell(r, SeePosition(p))) == Said(a, r) + [SeePosition(p)];
    forall d: Device ensures LastWord(Said(a, r) + [SeePosition(p)], d) == LastWord(Said(a, r), d) {
      WordAdded(Said(a, r), SeePosition(p), d);
    }
  }

  /** The rest of the poll condemns the outputs exactly if it fails, as it does when any of its writes is not acknowledged; it
      condemns the audit exactly if an append failed; and of each barrier it says: condemned on contradictory feedback; else,
      if the poll got as far as confirming, cleared when its request is confirmed and condemned when its time is up. */
  lemma FinishSpeaks(hw: Hw, t: Timing, b: Work, desired: Outputs, p: Position, now: Time)
    requires b.ok
    ensures var w := Finish(hw, t, b, desired, p, now); var said, done := Said(b.rig, w.rig), Done(b.rig, w.rig);
            && Later(b.rig, w.rig) && Plain(said)
            && (if w.ok then LastWord(said, RemoteIO).None? && !Failed(done)
                else Condemned(LastWord(said, RemoteIO), RemoteIO) && !w.ctl.safe)
            && (Unrecorded in done <==> LastWord(said, AuditStore).Some?)
            && (Unrecorded in done ==> Condemned(LastWord(said, AuditStore), AuditStore))
            && (p.entryOpen && p.entryClosed ==> Condemned(LastWord(said, EntryBarrier), EntryBarrier))
            && (p.exitOpen && p.exitClosed ==> Condemned(LastWord(said, ExitBarrier), ExitBarrier))
  {
    hide Confirmed, Sound, Lamps, Requested, Contradicted, Words, Failed;
    NothingSaid(b.rig);
    NotFailedYet(b.rig);
    assert Speaks(b.rig, b, None, None) by { assert OutputsWord(b, None, Failed(Done(b.rig, b.rig))); }
    if Contradictory(p) {
      SpeaksContradicted(hw, b.rig, b, p);
      var entry, exit :| Speaks(b.rig, Contradicted(hw, b, p), entry, exit)
                         && (if p.entryOpen && p.entryClosed then Condemned(entry, EntryBarrier) else entry.None?)
                         && (if p.exitOpen && p.exitClosed then Condemned(exit, ExitBarrier) else exit.None?);
      SpeaksMeans(b.rig, Contradicted(hw, b, p), entry, exit);
    } else {
      var w3 := Sound(hw, Lamps(hw, Requested(hw, b, desired, now), desired, p), t, BuzzerReady(desired, p), now);
      SpeaksReconcile(hw, t, b.rig, b, desired, p, now);
      if w3.ok {
        SpeaksConfirmed(b.rig, w3, t, desired, p, now);
        var entry, exit :| Speaks(b.rig, Confirmed(w3, t, desired, p, now), entry, exit);
        SpeaksMeans(b.rig, Confirmed(w3, t, desired, p, now), entry, exit);
      } else {
        UnconfirmedStays(w3, t, desired, p, now);
        SpeaksMeans(b.rig, w3, None, None);
      }
    }
  }

  lemma NotFailedYet(a: Rig)
    ensures !Failed(Done(a, a))
  {
  }

  lemma UnconfirmedStays(w: Work, t: Timing, desired: Outputs, p: Position, now: Time)
    requires !w.ok
    ensures Confirmed(w, t, desired, p, now) == w
  {
  }

  lemma SpeaksMeans(a: Rig, w: Work, entry: Option<Event>, exit: Option<Event>)
    requires Speaks(a, w, entry, exit)
    ensures var said, done := Said(a, w.rig), Done(a, w.rig);
            && Later(a, w.rig) && Plain(said)
            && LastWord(said, EntryBarrier) == entry && LastWord(said, ExitBarrier) == exit
            && (if w.ok then LastWord(said, RemoteIO).None? && !Failed(done)
                else Condemned(LastWord(said, RemoteIO), RemoteIO) && !w.ctl.safe)
            && (Unrecorded in done <==> LastWord(said, AuditStore).Some?)
            && (Unrecorded in done ==> Condemned(LastWord(said, AuditStore), AuditStore))
  {
    hide LastWord, Failed;
  }

  /** In a poll that returns without an error and without contradictory feedback, a side requested open is cleared on feedback, and
      without it condemned once more than the timeout has passed since the request; otherwise its barrier is not spoken of. */
  lemma ConfirmationSpeaks(hw: Hw, t: Timing, b: Work, desired: Outputs, p: Position, now: Time)
    requires Distinct(hw.m) && WorkInv(hw, b, false) && b.ok && !Contradictory(p) && Finish(hw, t, b, desired, p, now).ok
    ensures var w := Finish(hw, t, b, desired, p, now); var said := Said(b.rig, w.rig);
            && ConfirmedWord(LastWord(said, EntryBarrier), EntryBarrier, desired.entryOpen, p.entryOpen,
                             LateOf(w.ctl, t, EntrySide, now))
            && ConfirmedWord(LastWord(said, ExitBarrier), ExitBarrier, desired.exitOpen, p.exitOpen,
                             LateOf(w.ctl, t, ExitSide, now))
  {
    hide Confirmed, Sound, Lamps, Requested, Words, Failed, Distinct, WorkInv;
    NothingSaid(b.rig);
    NotFailedYet(b.rig);
    assert Speaks(b.rig, b, None, None) by { assert OutputsWord(b, None, Failed(Done(b.rig, b.rig))); }
    var w3 := Sound(hw, Lamps(hw, Requested(hw, b, desired, now), desired, p), t, BuzzerReady(desired, p), now);
    SpeaksReconcile(hw, t, b.rig, b, desired, p, now);
    BeforeConfirm(hw, t, b, desired, p, now);
    SpeaksConfirmed(b.rig, w3, t, desired, p, now);
    var entry, exit :| Speaks(b.rig, Confirmed(w3, t, desired, p, now), entry, exit)
                       && ConfirmedWord(entry, EntryBarrier, desired.entryOpen, p.entryOpen, LateOf(w3.ctl, t, EntrySide, now))
                       && ConfirmedWord(exit, ExitBarrier, desired.exitOpen, p.exitOpen, LateOf(w3.ctl, t, ExitSide, now));
    SpeaksMeans(b.rig, Confirmed(w3, t, desired, p, now), entry, exit);
    assert desired.entryOpen && !p.entryOpen ==> SinceOf(Finish(hw, t, b, desired, p, now).ctl, EntrySide) == SinceOf(w3.ctl, EntrySide);
    assert desired.exitOpen && !p.exitOpen ==> SinceOf(Finish(hw, t, b, desired, p, now).ctl, ExitSide) == SinceOf(w3.ctl, ExitSide);
  }

  /** Settings that are given stand; the others are 700 milliseconds for the pulse and 5 seconds for the timeout. */
  lemma TimingExactly(t: Timing)
    ensures var r := WithDefaults(t);
            && r.pulse == (if t.pulse > 0 then t.pulse else 700_000_000)
            && r.timeout == (if t.timeout > 0 then t.timeout else 5_000_000_000)
  {
  }
}
