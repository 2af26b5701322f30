/**
 What outputs that share an address do: exactly which mappings keep the safe state safe, and that the interlock needs every output
 on its own address, even on hardware that never fails.
 */
module SharedAddresses {
  import opened Domain
  import opened EngineSpec
  import opened RemoteOutputs
  import opened RemoteOutputsProofs
  import opened Control
  import opened ControlProofs

  // ---------- the safe state ----------

  /** No red shares its address with a coil that is not red. */
  ghost predicate NoRedShared(m: Mapping) {
    forall c: Coil, d: Coil {:trigger Addr(m, c), Addr(m, d)} :: c.Red? && !d.Red? ==> Addr(m, c) != Addr(m, d)
  }

  /** Writes to one address that all have one value leave it with that value. */
  lemma {:induction false} Uniform(m: Mapping, on: set<nat>, puts: seq<Put>, a: nat, v: bool)
    requires forall i :: 0 <= i < |puts| && Addr(m, puts[i].coil) == a ==> puts[i].value == v
    requires (exists i :: 0 <= i < |puts| && Addr(m, puts[i].coil) == a) || (a in on) == v
    ensures (a in FlipAll(m, on, puts)) == v
    decreases |puts|
  {
    if puts != [] {
      var on1 := Flip(m, on, puts[0]);
      if (a in on1) != v {
        var i :| 0 <= i < |puts| && Addr(m, puts[i].coil) == a;
        assert puts[1..][i - 1] == puts[i];
      }
      Uniform(m, on1, puts[1..], a, v);
    }
  }

  lemma SafePuts(m: Mapping, c: Coil)
    ensures exists i :: 0 <= i < |SAFE_PUTS| && SAFE_PUTS[i].coil == c
    ensures forall i :: 0 <= i < |SAFE_PUTS| ==> SAFE_PUTS[i].value == SAFE_PUTS[i].coil.Red?
  {
    match c
    case Horn => assert SAFE_PUTS[0].coil == c;
    case Green(EntrySide) => assert SAFE_PUTS[1].coil == c;
    case Red(EntrySide) => assert SAFE_PUTS[2].coil == c;
    case Green(ExitSide) => assert SAFE_PUTS[3].coil == c;
    case Red(ExitSide) => assert SAFE_PUTS[4].coil == c;
    case OpenRequest(EntrySide) => assert SAFE_PUTS[5].coil == c;
    case OpenRequest(ExitSide) => assert SAFE_PUTS[6].coil == c;
  }

  lemma SafeCoils(m: Mapping, on: set<nat>, c: Coil)
    requires NoRedShared(m)
    ensures Lit(m, FlipAll(m, on, SAFE_PUTS), c) == c.Red?
  {
    SafePuts(m, c);
    var i :| 0 <= i < |SAFE_PUTS| && SAFE_PUTS[i].coil == c;
    forall j | 0 <= j < |SAFE_PUTS| && Addr(m, SAFE_PUTS[j].coil) == Addr(m, c) ensures SAFE_PUTS[j].value == c.Red? {
      assert SAFE_PUTS[j].coil.Red? == c.Red?;
    }
    Uniform(m, on, SAFE_PUTS, Addr(m, c), c.Red?);
  }

  /** On working hardware, from any coils, a safe state leaves exactly the two reds on if and only if no red shares its address
      with a coil that is not red. `RemoteOutputsProofs.SharedAddressBreaksSafeState` has a mapping on which it fails. */
  lemma SafeStateExactly(hw: Hw, r: Rig)
    requires Working(hw)
    ensures SafeState(hw, r).ok
    ensures (forall c {:trigger Lit(hw.m, SafeState(hw, r).rig.on, c)} :: Lit(hw.m, SafeState(hw, r).rig.on, c) <==> c.Red?)
            <==> NoRedShared(hw.m)
  {
    WorkingWrites(hw, r, SAFE_PUTS);
    var on := SafeState(hw, r).rig.on;
    assert on == FlipAll(hw.m, r.on, SAFE_PUTS);
    if NoRedShared(hw.m) {
      forall c ensures Lit(hw.m, on, c) <==> c.Red? { SafeCoils(hw.m, r.on, c); }
    }
    if forall c {:trigger Lit(hw.m, on, c)} :: Lit(hw.m, on, c) <==> c.Red? {
      forall c: Coil, d: Coil | c.Red? && !d.Red? ensures Addr(hw.m, c) != Addr(hw.m, d) {
        assert Lit(hw.m, on, c) && !Lit(hw.m, on, d);
      }
    }
  }

  // ---------- what working hardware shows ----------

  /** Between a and b the coils were once exactly these, right after a write. */
  ghost predicate Seen(a: Rig, b: Rig, on: set<nat>) {
    exists i :: |a.story| <= i < |b.story| && b.story[i].Wrote? && b.story[i].after == on
  }

  lemma SeenLater(a: Rig, b: Rig, c: Rig, on: set<nat>)
    requires Seen(a, b, on) && b.story <= c.story
    ensures Seen(a, c, on)
  {
    var i :| |a.story| <= i < |b.story| && b.story[i].Wrote? && b.story[i].after == on;
    assert c.story[i] == b.story[i];
  }

  lemma SeenEarlier(a: Rig, b: Rig, c: Rig, on: set<nat>)
    requires Seen(b, c, on) && a.story <= b.story
    ensures Seen(a, c, on)
  {
  }

  /** From a to b exactly these writes were made, and every state on the way was seen. */
  ghost predicate Writes(m: Mapping, a: Rig, b: Rig, puts: seq<Put>) {
    && a.story <= b.story && b.since == a.since
    && b.on == FlipAll(m, a.on, puts)
    && forall k {:trigger puts[..k]} :: 0 < k <= |puts| ==> Seen(a, b, FlipAll(m, a.on, puts[..k]))
  }

  lemma {:induction false} FlipAllAppends(m: Mapping, on: set<nat>, a: seq<Put>, b: seq<Put>)
    ensures FlipAll(m, on, a + b) == FlipAll(m, FlipAll(m, on, a), b)
    decreases |a|
  {
    if a == [] {
      assert a + b == b;
    } else {
      assert (a + b)[1..] == a[1..] + b;
      FlipAllAppends(m, Flip(m, on, a[0]), a[1..], b);
    }
  }

  lemma WroteNothing(m: Mapping, a: Rig)
    ensures Writes(m, a, a, [])
  {
  }

  lemma WroteThen(m: Mapping, a: Rig, b: Rig, c: Rig, p: seq<Put>, q: seq<Put>)
    requires Writes(m, a, b, p) && Writes(m, b, c, q)
    ensures Writes(m, a, c, p + q)
  {
    hide Seen, FlipAll;
    FlipAllAppends(m, a.on, p, q);
    forall k | 0 < k <= |p + q| ensures Seen(a, c, FlipAll(m, a.on, (p + q)[..k])) {
      if k <= |p| {
        assert (p + q)[..k] == p[..k];
        SeenLater(a, b, c, FlipAll(m, a.on, p[..k]));
      } else {
        assert (p + q)[..k] == p + q[..k - |p|];
        FlipAllAppends(m, a.on, p, q[..k - |p|]);
        SeenEarlier(a, b, c, FlipAll(m, b.on, q[..k - |p|]));
      }
    }
  }

  lemma {:induction false} WritesAreSeen(hw: Hw, r: Rig, puts: seq<Put>)
    requires Working(hw)
    ensures Writes(hw.m, r, WriteAll(hw, r, puts).rig, puts) && WriteAll(hw, r, puts).ok
    decreases |puts|
  {
    hide Seen;
    if puts == [] {
      WroteNothing(hw.m, r);
    } else {
      var d := WriteCoil(hw, r, puts[0]).rig;
      assert Writes(hw.m, r, d, [puts[0]]) by { OneWrite(hw, r, puts[0]); }
      WritesAreSeen(hw, d, puts[1..]);
      WroteThen(hw.m, r, d, WriteAll(hw, d, puts[1..]).rig, [puts[0]], puts[1..]);
      assert [puts[0]] + puts[1..] == puts;
    }
  }

  lemma OneWrite(hw: Hw, r: Rig, put: Put)
    requires Working(hw)
    ensures Writes(hw.m, r, WriteCoil(hw, r, put).rig, [put])
  {
    var d := WriteCoil(hw, r, put).rig;
    assert [put][1..] == [];
    assert FlipAll(hw.m, r.on, [put]) == Flip(hw.m, r.on, put) == d.on;
    assert d.story[|r.story|].Wrote? && d.story[|r.story|].after == d.on;
    forall k | 0 < k <= |[put]| ensures Seen(r, d, FlipAll(hw.m, r.on, [put][..k])) {
      assert [put][..k] == [put];
    }
  }

  lemma NoteWritesNothing(hw: Hw, a: Rig, r: Rig, puts: seq<Put>, b: Beat)
    requires Writes(hw.m, a, r, puts)
    ensures Writes(hw.m, a, Note(hw, r, b).rig, puts)
  {
    hide Seen, FlipAll;
    var n := Note(hw, r, b).rig;
    forall k | 0 < k <= |puts| ensures Seen(a, n, FlipAll(hw.m, a.on, puts[..k])) {
      SeenLater(a, r, n, FlipAll(hw.m, a.on, puts[..k]));
    }
  }

  lemma NotedFirst(hw: Hw, r: Rig, b: Beat)
    ensures Writes(hw.m, r, Note(hw, r, b).rig, [])
  {
  }

  lemma PerformIsSeen(hw: Hw, r: Rig, cmd: Command)
    requires AllWell(hw)
    ensures Writes(hw.m, r, Perform(hw, r, cmd).rig, PutsOf(cmd)) && Perform(hw, r, cmd).ok
  {
    hide Writes, WriteAll;
    var r1 := if cmd.on then Note(hw, r, Intent(cmd)).rig else r;
    if cmd.on { NotedFirst(hw, r, Intent(cmd)); } else { WroteNothing(hw.m, r); }
    WritesAreSeen(hw, r1, PutsOf(cmd));
    var d := WriteAll(hw, r1, PutsOf(cmd)).rig;
    WroteThen(hw.m, r, r1, d, [], PutsOf(cmd));
    assert [] + PutsOf(cmd) == PutsOf(cmd);
    NoteWritesNothing(hw, r, d, PutsOf(cmd), Result(cmd, true));
  }

  // ---------- the writes of one poll ----------

  /** Work that succeeded, with these outputs then applied and these writes made. */
  ghost predicate Played(hw: Hw, w: Work, r: Work, applied: Outputs, puts: seq<Put>) {
    r.ok && r.ctl.applied == applied && Writes(hw.m, w.rig, r.rig, puts)
  }

  lemma DoPlays(hw: Hw, w: Work, cmd: Command)
    requires AllWell(hw) && w.ok
    ensures Played(hw, w, Do(hw, w, cmd), Applied(w.ctl.applied, cmd), PutsOf(cmd))
    ensures Do(hw, w, cmd).ctl == w.ctl.(applied := Applied(w.ctl.applied, cmd))
  {
    hide Writes, Perform;
    PerformIsSeen(hw, w.rig, cmd);
  }

  function RequestPuts(o: Outputs, s: Side, want: bool): seq<Put> {
    if want == OpenOf(o, s) then []
    else (if !want && GreenOf(o, s) then Signal(s, false) else []) + [Put(OpenRequest(s), want)]
  }

  function Asked(o: Outputs, s: Side, want: bool): Outputs {
    Applied(if want != OpenOf(o, s) && !want then Applied(o, Light(s, false)) else o, Barrier(s, want))
  }

  lemma RequestPlays(hw: Hw, w: Work, s: Side, want: bool, now: Time)
    requires AllWell(hw) && w.ok
    ensures var r := Request(hw, w, s, want, now);
            && Played(hw, w, r, Asked(w.ctl.applied, s, want), RequestPuts(w.ctl.applied, s, want))
            && r.ctl.lastReady == w.ctl.lastReady && r.ctl.buzzerUntil == w.ctl.buzzerUntil && r.ctl.safe == w.ctl.safe
  {
    hide Do, Writes, AllWell;
    var o := w.ctl.applied;
    if want == OpenOf(o, s) {
      WroteNothing(hw.m, w.rig);
    } else if !want && GreenOf(o, s) {
      DoPlays(hw, w, Light(s, false));
      var w1 := Do(hw, w, Light(s, false));
      DoPlays(hw, w1, Barrier(s, want));
      WroteThen(hw.m, w.rig, w1.rig, Do(hw, w1, Barrier(s, want)).rig, Signal(s, false), [Put(OpenRequest(s), want)]);
    } else {
      DoPlays(hw, w, Barrier(s, want));
      assert [] + [Put(OpenRequest(s), want)] == [Put(OpenRequest(s), want)];
    }
  }

  function LampPuts(o: Outputs, s: Side, green: bool): seq<Put> {
    if green == GreenOf(o, s) then [] else Signal(s, green)
  }

  lemma LampPlays(hw: Hw, w: Work, s: Side, green: bool)
    requires AllWell(hw) && w.ok
    ensures var r := Lamp(hw, w, s, green);
            && Played(hw, w, r, Applied(w.ctl.applied, Light(s, green)), LampPuts(w.ctl.applied, s, green))
            && r.ctl.lastReady == w.ctl.lastReady && r.ctl.buzzerUntil == w.ctl.buzzerUntil && r.ctl.safe == w.ctl.safe
  {
    hide Do, Writes, AllWell;
    if green == GreenOf(w.ctl.applied, s) { WroteNothing(hw.m, w.rig); } else { DoPlays(hw, w, Light(s, green)); }
  }

  predicate Sounding(c: Ctl, t: Timing, ready: bool, now: Time) {
    var u := Pulse(c, t, ready, now).buzzerUntil;
    u.Some? && now < u.value
  }

  function BuzzPuts(c: Ctl, t: Timing, ready: bool, now: Time): seq<Put> {
    var on := Sounding(c, t, ready, now);
    if on == c.applied.buzzer then [] else [Put(Horn, on)]
  }

  lemma SoundPlays(hw: Hw, w: Work, t: Timing, ready: bool, now: Time)
    requires AllWell(hw) && w.ok
    ensures var r := Sound(hw, w, t, ready, now);
            && r.ok && Writes(hw.m, w.rig, r.rig, BuzzPuts(w.ctl, t, ready, now))
            && r.ctl.applied == w.ctl.applied.(buzzer := Sounding(w.ctl, t, ready, now))
            && r.ctl.lastReady == ready && r.ctl.buzzerUntil == Pulse(w.ctl, t, ready, now).buzzerUntil && r.ctl.safe == w.ctl.safe
  {
    hide Do, Writes, AllWell;
    var c := Pulse(w.ctl, t, ready, now);
    var on := c.buzzerUntil.Some? && now < c.buzzerUntil.value;
    if on == c.applied.buzzer { WroteNothing(hw.m, w.rig); } else { DoPlays(hw, w.(ctl := c), Buzz(on)); }
  }

  /** The writes of one reconciliation on working hardware. */
  function ReconcilePuts(c: Ctl, t: Timing, d: Outputs, p: Position, now: Time): seq<Put> {
    var o1 := Asked(c.applied, EntrySide, d.entryOpen);
    var o2 := Asked(o1, ExitSide, d.exitOpen);
    var g, h := GreenWanted(d, p, EntrySide), GreenWanted(d, p, ExitSide);
    var o3 := Applied(o2, Light(EntrySide, g));
    var o4 := Applied(o3, Light(ExitSide, h));
    RequestPuts(c.applied, EntrySide, d.entryOpen) + RequestPuts(o1, ExitSide, d.exitOpen)
    + LampPuts(o2, EntrySide, g) + LampPuts(o3, ExitSide, h) + BuzzPuts(c.(applied := o4), t, BuzzerReady(d, p), now)
  }

  /** The outputs applied by a reconciliation on working hardware. */
  function AppliedAfter(c: Ctl, t: Timing, d: Outputs, p: Position, now: Time): Outputs {
    Outputs(GreenWanted(d, p, EntrySide), GreenWanted(d, p, ExitSide), Sounding(c, t, BuzzerReady(d, p), now), d.entryOpen, d.exitOpen)
  }

  lemma OutputsAsked(o: Outputs, d: Outputs, g: bool, h: bool)
    ensures Applied(Applied(Asked(Asked(o, EntrySide, d.entryOpen), ExitSide, d.exitOpen), Light(EntrySide, g)), Light(ExitSide, h))
            == Outputs(g, h, o.buzzer, d.entryOpen, d.exitOpen)
  {
  }

  predicate Remembers(c: Ctl, applied: Outputs, lastReady: bool, buzzerUntil: Option<Time>) {
    c.applied == applied && c.lastReady == lastReady && c.buzzerUntil == buzzerUntil
  }

  lemma ConfirmWritesNothing(hw: Hw, a: Rig, w: Work, t: Timing, d: Outputs, p: Position, now: Time, puts: seq<Put>)
    requires Writes(hw.m, a, w.rig, puts) && w.ok
    ensures Writes(hw.m, a, Confirmed(w, t, d, p, now).rig, puts)
    ensures Confirmed(w, t, d, p, now).ok
    ensures Remembers(Confirmed(w, t, d, p, now).ctl, w.ctl.applied, w.ctl.lastReady, w.ctl.buzzerUntil)
    ensures Confirmed(w, t, d, p, now).ctl.safe == w.ctl.safe
  {
    hide FlipAll;
    var r := Confirmed(w, t, d, p, now).rig;
    assert r.story == w.rig.story && r.on == w.rig.on && r.since == w.rig.since;
    forall k | 0 < k <= |puts| ensures Seen(a, r, FlipAll(hw.m, a.on, puts[..k])) {
      assert Seen(a, w.rig, FlipAll(hw.m, a.on, puts[..k]));
    }
  }

  lemma ReconcileIsSeen(hw: Hw, t: Timing, w: Work, d: Outputs, p: Position, now: Time)
    requires AllWell(hw) && w.ok
    ensures var r := Reconcile(hw, t, w, d, p, now);
            && r.ok && Writes(hw.m, w.rig, r.rig, ReconcilePuts(w.ctl, t, d, p, now))
            && r.ctl.safe == w.ctl.safe
            && Remembers(r.ctl, AppliedAfter(w.ctl, t, d, p, now), BuzzerReady(d, p), Pulse(w.ctl, t, BuzzerReady(d, p), now).buzzerUntil)
  {
    hide Request, Lamp, Sound, Confirm, Writes, AllWell, RequestPuts, LampPuts, BuzzPuts, Asked, GreenWanted, BuzzerReady;
    RequestPlays(hw, w, EntrySide, d.entryOpen, now);
    var w1 := Request(hw, w, EntrySide, d.entryOpen, now);
    RequestPlays(hw, w1, ExitSide, d.exitOpen, now);
    var w2 := Request(hw, w1, ExitSide, d.exitOpen, now);
    var g, h := GreenWanted(d, p, EntrySide), GreenWanted(d, p, ExitSide);
    LampPlays(hw, w2, EntrySide, g);
    var w3 := Lamp(hw, w2, EntrySide, g);
    LampPlays(hw, w3, ExitSide, h);
    var w4 := Lamp(hw, w3, ExitSide, h);
    SoundPlays(hw, w4, t, BuzzerReady(d, p), now);
    var w5 := Sound(hw, w4, t, BuzzerReady(d, p), now);
    OutputsAsked(w.ctl.applied, d, g, h);
    SameBuzz(w4.ctl, w.ctl, t, BuzzerReady(d, p), now);
    var a, b := RequestPuts(w.ctl.applied, EntrySide, d.entryOpen), RequestPuts(w1.ctl.applied, ExitSide, d.exitOpen);
    var e, f := LampPuts(w2.ctl.applied, EntrySide, g), LampPuts(w3.ctl.applied, ExitSide, h);
    var z := BuzzPuts(w4.ctl, t, BuzzerReady(d, p), now);
    WroteThen(hw.m, w.rig, w1.rig, w2.rig, a, b);
    WroteThen(hw.m, w.rig, w2.rig, w3.rig, a + b, e);
    WroteThen(hw.m, w.rig, w3.rig, w4.rig, a + b + e, f);
    WroteThen(hw.m, w.rig, w4.rig, w5.rig, a + b + e + f, z);
    ConfirmWritesNothing(hw, w.rig, w5, t, d, p, now, a + b + e + f + z);
  }

  lemma SameBuzz(a: Ctl, b: Ctl, t: Timing, ready: bool, now: Time)
    requires a.lastReady == b.lastReady && a.buzzerUntil == b.buzzerUntil
    ensures BuzzPuts(a, t, ready, now) == BuzzPuts(b.(applied := a.applied), t, ready, now)
  {
  }
}
