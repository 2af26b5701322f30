/**
 What every reachable engine state satisfies, and what every step does.
 */
module EngineProofs {
  import opened Domain
  import opened Pairing
  import opened EngineSpec

  // ---------- the stable streak ----------

  predicate Qualifying(cfg: Config, a: Audited) {
    a.reading.stable && a.reading.kg >= cfg.minStable
  }

  /** The last n frames all qualify and neighbours are within tolerance. */
  predicate Streak(cfg: Config, frames: seq<Audited>, n: nat) {
    && n <= |frames|
    && (forall i :: |frames| - n <= i < |frames| ==> Qualifying(cfg, frames[i]))
    && (forall i :: |frames| - n < i < |frames| ==> Abs(frames[i - 1].reading.kg - frames[i].reading.kg) <= cfg.tolerance)
  }

  ghost predicate LongestStreak(cfg: Config, frames: seq<Audited>, n: nat) {
    Streak(cfg, frames, n) && forall m: nat :: Streak(cfg, frames, m) ==> m <= n
  }

  lemma StreakShrinks(cfg: Config, frames: seq<Audited>, a: Audited, m: nat)
    requires Streak(cfg, frames + [a], m) && m > 0
    ensures Streak(cfg, frames, m - 1) && Qualifying(cfg, a)
    ensures m > 1 ==> frames != [] && Abs(frames[|frames| - 1].reading.kg - a.reading.kg) <= cfg.tolerance
  {
    var f := frames + [a];
    assert f[|frames|] == a;
    assert forall i :: 0 <= i < |frames| ==> f[i] == frames[i];
    if m > 1 { assert f[|frames| - 1] == frames[|frames| - 1]; }
  }

  /** The counter's update rule computes the longest streak. */
  lemma StreakStep(cfg: Config, frames: seq<Audited>, n: nat, a: Audited)
    requires LongestStreak(cfg, frames, n)
    ensures LongestStreak(cfg, frames + [a],
              if !Qualifying(cfg, a) then 0
              else if n > 0 && Abs(frames[|frames| - 1].reading.kg - a.reading.kg) <= cfg.tolerance then n + 1
              else 1)
  {
    var f := frames + [a];
    var k := if !Qualifying(cfg, a) then 0
             else if n > 0 && Abs(frames[|frames| - 1].reading.kg - a.reading.kg) <= cfg.tolerance then n + 1
             else 1;
    assert forall i :: 0 <= i < |frames| ==> f[i] == frames[i];
    assert f[|frames|] == a;
    assert Streak(cfg, f, k);
    forall m: nat | Streak(cfg, f, m) ensures m <= k {
      if m > 0 { StreakShrinks(cfg, frames, a, m); }
    }
  }

  lemma FewerTolerances(a: int, b: int, tolerance: int)
    requires a <= b && tolerance >= 0
    ensures a * tolerance <= b * tolerance
  {
    assert b * tolerance - a * tolerance == (b - a) * tolerance;
  }

  /** Any two of the last n frames of a streak differ by at most n - 1 tolerances. */
  lemma {:induction false} StreakSpread(cfg: Config, frames: seq<Audited>, n: nat, i: nat, j: nat)
    requires Streak(cfg, frames, n) && |frames| - n <= i <= j < |frames| && cfg.tolerance >= 0
    ensures Abs(frames[i].reading.kg - frames[j].reading.kg) <= (j - i) * cfg.tolerance <= (n - 1) * cfg.tolerance
  {
    if i < j {
      StreakSpread(cfg, frames, n, i, j - 1);
      assert Abs(frames[j - 1].reading.kg - frames[j].reading.kg) <= cfg.tolerance;
      calc {
        (j - 1 - i) * cfg.tolerance + cfg.tolerance;
        (j - i) * cfg.tolerance;
      }
    }
    FewerTolerances(j - i, n - 1, cfg.tolerance);
  }

  // ---------- the story of a transaction ----------

  /** Entry was authorised on proof: identity accepted, safety clear, deck clear, an audited sound stable near-empty scale. */
  predicate EntryProof(cfg: Config, t: Tx, scale: Option<Audited>) {
    && t.identity == IdAccepted
    && t.pos.safetyClear && !t.pos.frontPresent && !t.pos.rearPresent
    && scale.Some? && scale.value.rawRef.Present() && scale.value.reading.Sound()
    && scale.value.reading.stable && Abs(scale.value.reading.kg) <= cfg.emptyMax
  }

  /** Weighing became possible: identity and position accepted together, on an audited sound scale. */
  predicate ReadyProof(t: Tx, scale: Option<Audited>) {
    && t.identity == IdAccepted && t.position == PosAccepted
    && scale.Some? && scale.value.rawRef.Present() && scale.value.reading.Sound()
  }

  predicate MarkOK(cfg: Config, id: string, m: Mark) {
    match m
    case Authorized(t, scale) => t.id == id && EntryProof(cfg, t, scale)
    case Ready(t, scale) => t.id == id && ReadyProof(t, scale)
    case Offered(ticket, _) => ticket.txID == id && ticket.weight.rawRef.Present() && ticket.weight.kg >= cfg.minStable
  }

  predicate Entered(m: seq<Mark>) {
    m != [] && (m[|m| - 1].Authorized? || Entered(m[..|m| - 1]))
  }

  predicate ReadyAfter(m: seq<Mark>) {
    m != [] && ((m[|m| - 1].Ready? && Entered(m[..|m| - 1])) || ReadyAfter(m[..|m| - 1]))
  }

  /** Every mark is proved, and every offer follows an authorisation and then a readiness. */
  predicate Story(cfg: Config, id: string, m: seq<Mark>) {
    m == [] || (
      && Story(cfg, id, m[..|m| - 1])
      && MarkOK(cfg, id, m[|m| - 1])
      && (m[|m| - 1].Offered? ==> ReadyAfter(m[..|m| - 1])))
  }

  function Offers(m: seq<Mark>): nat {
    if m == [] then 0 else Offers(m[..|m| - 1]) + if m[|m| - 1].Offered? then 1 else 0
  }

  function LastAccepted(m: seq<Mark>): Option<PassTicket> {
    if m == [] then None
    else if m[|m| - 1].Offered? && m[|m| - 1].accepted then Some(m[|m| - 1].ticket)
    else LastAccepted(m[..|m| - 1])
  }

  lemma Marked(m: seq<Mark>, x: Mark)
    ensures (m + [x])[..|m + [x]| - 1] == m
  {
  }

  lemma {:induction false} EnteredMeans(cfg: Config, id: string, m: seq<Mark>)
    requires Story(cfg, id, m) && Entered(m)
    ensures exists i :: 0 <= i < |m| && m[i].Authorized? && EntryProof(cfg, m[i].tx, m[i].scale)
  {
    var n := |m| - 1;
    if m[n].Authorized? {
    } else {
      EnteredMeans(cfg, id, m[..n]);
      var i :| 0 <= i < n && m[..n][i].Authorized? && EntryProof(cfg, m[..n][i].tx, m[..n][i].scale);
      assert m[i] == m[..n][i];
    }
  }

  ghost predicate Earned(cfg: Config, m: seq<Mark>, i: int, j: int) {
    && 0 <= i < j < |m|
    && m[i].Authorized? && EntryProof(cfg, m[i].tx, m[i].scale)
    && m[j].Ready? && ReadyProof(m[j].tx, m[j].scale)
  }

  lemma {:induction false} ReadyAfterMeans(cfg: Config, id: string, m: seq<Mark>)
    requires Story(cfg, id, m) && ReadyAfter(m)
    ensures exists i, j :: Earned(cfg, m, i, j)
  {
    var n := |m| - 1;
    if m[n].Ready? && Entered(m[..n]) {
      EnteredMeans(cfg, id, m[..n]);
      var i :| 0 <= i < n && m[..n][i].Authorized? && EntryProof(cfg, m[..n][i].tx, m[..n][i].scale);
      assert Earned(cfg, m, i, n);
    } else {
      ReadyAfterMeans(cfg, id, m[..n]);
      var i, j :| Earned(cfg, m[..n], i, j);
      assert Earned(cfg, m, i, j);
    }
  }

  // ---------- the invariant ----------

  predicate Paired(o: Outputs) {
    o.entryGreen == o.entryOpen && o.exitGreen == o.exitOpen == o.buzzer
  }

  /** States past an authorisation carry it in their story. */
  predicate Placed(st: State, m: seq<Mark>) {
    && (st == EntryAuthorized || st == Entering || st == Positioning ==> Entered(m))
    && (st == ReadyToWeigh || st == Weighing ==> ReadyAfter(m))
  }

  predicate Exited(st: State) {
    st == ExitAuthorized || st == Exiting || st == Completed
  }

  predicate OutputsOK(t: Tx, m: seq<Mark>) {
    && Paired(t.outputs)
    && (Exited(t.state) ==> t.accepted.Some?)
    && (t.state == FaultLockout || t.state == Completed ==> t.outputs == ALL_OFF)
    && (match LastAccepted(m)
        case None => t.accepted.None? && !t.outputs.exitOpen
        case Some(k) => t.accepted == Some(k.weight) && t.ticketID == k.id)
  }

  ghost predicate Counting(cfg: Config, s: Eng)
    requires s.tx.Some?
  {
    var n := s.tx.value.confirmations;
    && LongestStreak(cfg, s.frames, n)
    && s.stableBase == (if n == 0 then None else Some(s.frames[|s.frames| - 1]))
    && (forall i :: 0 <= i < |s.frames| ==> s.frames[i].rawRef.Present() && s.frames[i].reading.Sound())
    && (Offers(s.marks) == 0 && s.tx.value.state != FaultLockout ==> n < cfg.confirmations)
  }

  ghost predicate TxInv(cfg: Config, s: Eng)
    requires s.tx.Some?
  {
    var t := s.tx.value;
    OutputsOK(t, s.marks) && Placed(t.state, s.marks) && Story(cfg, t.id, s.marks) && Counting(cfg, s)
  }

  ghost predicate Inv(cfg: Config, s: Eng) {
    && cfg.confirmations > 0
    && (s.lastScale.Some? ==> s.lastScale.value.rawRef.Present())
    && (s.tx.None? ==> s.stableBase.None?)
    && (s.tx.Some? ==> TxInv(cfg, s))
  }

  /** What the helpers that neither weigh nor commit may do: they never turn an exit output on, never count a frame,
      never offer a ticket. */
  predicate Quiet(s: Eng, s': Eng) {
    && s.tx.Some? && s'.tx.Some?
    && s'.frames == s.frames && s'.stableBase == s.stableBase
    && s.tx.value.id == s'.tx.value.id
    && s.tx.value.confirmations == s'.tx.value.confirmations
    && s.tx.value.accepted == s'.tx.value.accepted
    && s.tx.value.ticketID == s'.tx.value.ticketID
    && (s'.tx.value.outputs.exitOpen ==> s.tx.value.outputs.exitOpen)
    && Offers(s'.marks) == Offers(s.marks)
    && LastAccepted(s'.marks) == LastAccepted(s.marks)
    && (s.tx.value.state == FaultLockout ==> s'.tx.value.state == FaultLockout && s'.tx.value.outputs == ALL_OFF)
  }

  lemma CountingCarries(cfg: Config, s: Eng, s': Eng)
    requires s.tx.Some? && Counting(cfg, s) && Quiet(s, s')
    ensures Counting(cfg, s')
  {
  }

  lemma LockKeeps(cfg: Config, s: Eng)
    requires s.tx.Some? && Inv(cfg, s)
    ensures Inv(cfg, Lock(s)) && Quiet(s, Lock(s))
  {
    hide Counting;
    CountingCarries(cfg, s, Lock(s));
  }

  lemma SyncKeeps(cfg: Config, s: Eng)
    requires s.tx.Some? && Inv(cfg, s)
    ensures Inv(cfg, SyncFaults(s)) && Quiet(s, SyncFaults(s))
  {
    hide Counting;
    CountingCarries(cfg, s, SyncFaults(s));
  }

  lemma ModeKeeps(cfg: Config, s: Eng)
    requires s.tx.Some? && Inv(cfg, s)
    ensures Inv(cfg, UpdateMode(s)) && Quiet(s, UpdateMode(s))
  {
    hide Counting;
    CountingCarries(cfg, s, UpdateMode(s));
  }

  lemma AuthorizeKeeps(cfg: Config, s: Eng)
    requires s.tx.Some? && Inv(cfg, s)
    ensures Inv(cfg, TryAuthorize(cfg, s)) && Quiet(s, TryAuthorize(cfg, s))
  {
    hide Counting;
    var r := TryAuthorize(cfg, s);
    if r == s {
    } else if r == Lock(s) {
      LockKeeps(cfg, s);
    } else {
      Marked(s.marks, Authorized(s.tx.value, s.lastScale));
      CountingCarries(cfg, s, r);
    }
  }

  lemma ReadyKeeps(cfg: Config, s: Eng)
    requires s.tx.Some? && Inv(cfg, s)
    ensures Inv(cfg, TryReady(s)) && Quiet(s, TryReady(s))
  {
    hide Counting;
    var r := TryReady(s);
    var m := Ready(s.tx.value, s.lastScale);
    Marked(s.marks, m);
    if r.marks != s.marks {
      ReadyNeedsEntry(cfg, s.tx.value.id, s.marks);
    }
    CountingCarries(cfg, s, r);
  }

  /** A readiness after an entry stays one, and is preceded by an entry. */
  lemma {:induction false} ReadyNeedsEntry(cfg: Config, id: string, m: seq<Mark>)
    ensures ReadyAfter(m) ==> Entered(m)
  {
    if m != [] { ReadyNeedsEntry(cfg, id, m[..|m| - 1]); }
  }

  /** Rewriting fields the invariant does not look at, with a state that asks no more of the story and outputs that only drop. */
  lemma RewriteKeeps(cfg: Config, s: Eng, t: Tx)
    requires s.tx.Some? && Inv(cfg, s)
    requires var o := s.tx.value;
             && t.id == o.id && t.confirmations == o.confirmations && t.accepted == o.accepted && t.ticketID == o.ticketID
             && (t.outputs == o.outputs || t.outputs == EntryOff(o.outputs))
             && Placed(t.state, s.marks)
             && (o.state == FaultLockout <==> t.state == FaultLockout) && (o.state == Completed <==> t.state == Completed)
             && (Exited(t.state) ==> Exited(o.state))
    ensures Inv(cfg, Set(s, t)) && Quiet(s, Set(s, t))
  {
    hide Counting;
    CountingCarries(cfg, s, Set(s, t));
  }

  ghost predicate Kept(cfg: Config, s: Eng, s': Eng) {
    Inv(cfg, s') && Quiet(s, s')
  }

  lemma PositionShape(s: Eng)
    requires s.tx.Some?
    ensures var t, r := s.tx.value, EvaluatePosition(s).tx.value;
            && EvaluatePosition(s) == Set(s, r)
            && r == t.(position := r.position, mode := r.mode, outputs := r.outputs)
            && (r.outputs == t.outputs || r.outputs == EntryOff(t.outputs))
  {
  }

  lemma PositionKeeps(cfg: Config, s: Eng)
    requires s.tx.Some? && Inv(cfg, s)
    ensures Inv(cfg, EvaluatePosition(s)) && Quiet(s, EvaluatePosition(s))
  {
    PositionShape(s);
    RewriteKeeps(cfg, s, EvaluatePosition(s).tx.value);
  }

  lemma AcceptKeeps(cfg: Config, s: Eng, t: Tx)
    requires s.tx.Some? && Inv(cfg, s)
    requires var o := s.tx.value;
             && t == o.(identity := t.identity, reason := t.reason, mode := t.mode, plate := t.plate, state := t.state)
             && (t.state == o.state || (o.state == IdentityMismatch && t.state == Identifying))
    ensures Kept(cfg, s, TryAuthorize(cfg, Set(s, t)))
  {
    RewriteKeeps(cfg, s, t);
    AuthorizeKeeps(cfg, Set(s, t));
  }

  lemma CrossCheckKeeps(cfg: Config, env: Env, s: Eng)
    requires s.tx.Some? && Inv(cfg, s) && s.tx.value.state != FaultLockout && s.tx.value.state != Completed
    ensures Kept(cfg, s, CrossCheck(cfg, env, s))
  {
    hide Story, Counting, OutputsOK, Quiet, TryAuthorize, VehicleKey;
    var t := s.tx.value;
    var look := Resolve(env, t.tag.tag);
    if look.Mapped? && VehicleKey(env.u, look.plate) == VehicleKey(env.u, t.plate.plate) {
      AcceptKeeps(cfg, s, t.(identity := IdAccepted, reason := ChannelsMatch,
                             state := if t.state == IdentityMismatch then Identifying else t.state));
    } else {
      var r := CrossCheck(cfg, env, s).tx.value;
      RewriteKeeps(cfg, s, r);
      assert CrossCheck(cfg, env, s) == Set(s, r);
    }
  }

  lemma ManualKeeps(cfg: Config, s: Eng)
    requires s.tx.Some? && Inv(cfg, s)
    ensures Kept(cfg, s, GoManual(s))
  {
    RewriteKeeps(cfg, s, s.tx.value.(identity := IdManual, mode := Manual));
  }

  lemma TagAloneKeeps(cfg: Config, env: Env, s: Eng)
    requires s.tx.Some? && Inv(cfg, s)
    ensures Kept(cfg, s, TagAlone(cfg, env, s))
  {
    var t := s.tx.value;
    var look := Resolve(env, t.tag.tag);
    if look.Mapped? {
      AcceptKeeps(cfg, s, t.(plate := PlateRead(look.plate, "", Faulty, t.tag.observed),
                             identity := IdAccepted, reason := PlateDegraded, mode := Degraded));
    } else {
      ManualKeeps(cfg, s);
    }
  }

  lemma IdentityCases(cfg: Config, env: Env, s: Eng)
    requires s.tx.Some?
    ensures var t, r := s.tx.value, EvaluateIdentity(cfg, env, s);
            || r == s
            || (t.state != FaultLockout && t.state != Completed && r == CrossCheck(cfg, env, s))
            || r == TryAuthorize(cfg, Set(s, t.(identity := IdAccepted, reason := TagDegraded, mode := Degraded)))
            || r == TagAlone(cfg, env, s)
            || r == GoManual(s)
  {
  }

  lemma QuietRefl(cfg: Config, s: Eng)
    requires s.tx.Some? && Inv(cfg, s)
    ensures Kept(cfg, s, s)
  {
  }

  lemma IdentityKeeps(cfg: Config, env: Env, s: Eng)
    requires s.tx.Some? && Inv(cfg, s)
    ensures Kept(cfg, s, EvaluateIdentity(cfg, env, s))
  {
    IdentityCases(cfg, env, s);
    var t, r := s.tx.value, EvaluateIdentity(cfg, env, s);
    if r == s {
      QuietRefl(cfg, s);
    } else if r == GoManual(s) {
      ManualKeeps(cfg, s);
    } else if r == TagAlone(cfg, env, s) {
      TagAloneKeeps(cfg, env, s);
    } else if t.state != FaultLockout && t.state != Completed && r == CrossCheck(cfg, env, s) {
      CrossCheckKeeps(cfg, env, s);
    } else {
      AcceptKeeps(cfg, s, t.(identity := IdAccepted, reason := TagDegraded, mode := Degraded));
    }
  }

  // ---------- whole steps ----------

  lemma KeptTrans(cfg: Config, a: Eng, b: Eng, c: Eng)
    requires a.tx.Some? && Kept(cfg, a, b) && Kept(cfg, b, c)
    ensures Kept(cfg, a, c)
  {
  }

  lemma StartKeeps(cfg: Config, env: Env, s: Eng, observed: Time)
    requires Inv(cfg, s) && s.tx.None?
    ensures var r := Start(env, s, observed);
            && Inv(cfg, r) && !r.tx.value.outputs.exitOpen && r.tx.value.accepted.None?
            && Offers(r.marks) == 0 && r.frames == []
  {
    hide Start;
    var r := Start(env, s, observed);
    StartShape(env, s, observed);
    assert LongestStreak(cfg, [], 0);
  }

  lemma StartShape(env: Env, s: Eng, observed: Time)
    ensures var r := Start(env, s, observed);
            && r.marks == [] && r.frames == [] && r.lastScale == s.lastScale && r.stableBase == s.stableBase
            && r.tx.value.outputs == ALL_OFF && r.tx.value.accepted.None? && r.tx.value.confirmations == 0
            && (r.tx.value.state == FaultLockout || r.tx.value.state == Identifying)
  {
    hide AuxDevices;
  }

  lemma ApproachingKeeps(cfg: Config, s: Eng)
    requires s.tx.Some? && Inv(cfg, s)
    ensures Kept(cfg, s, Approaching(cfg, s))
  {
    if Approaching(cfg, s) == s { QuietRefl(cfg, s); } else { AuthorizeKeeps(cfg, s); }
  }

  lemma StateKeeps(cfg: Config, s: Eng, st: State)
    requires s.tx.Some? && Inv(cfg, s) && s.tx.value.state != FaultLockout && s.tx.value.state != Completed
    requires Placed(st, s.marks) && st != FaultLockout && !Exited(st)
    ensures Kept(cfg, s, Set(s, s.tx.value.(state := st)))
  {
    RewriteKeeps(cfg, s, s.tx.value.(state := st));
  }

  lemma OnDeckKeeps(cfg: Config, s: Eng, p: Position)
    requires s.tx.Some? && Inv(cfg, s)
    ensures Kept(cfg, s, OnDeck(s, p))
  {
    hide Story, Counting, OutputsOK, Quiet, EvaluatePosition, TryReady;
    var t := s.tx.value;
    QuietRefl(cfg, s);
    var s1 := if p.frontPresent && t.state == EntryAuthorized then Set(s, t.(state := Entering)) else s;
    if s1 != s { StateKeeps(cfg, s, Entering); }
    assert Kept(cfg, s, s1);
    if p.frontPresent || p.rearPresent { SettleKeeps(cfg, s1); KeptTrans(cfg, s, s1, OnDeck(s, p)); }
  }

  function Settle(s1: Eng): Eng
    requires s1.tx.Some?
  {
    var t1 := s1.tx.value;
    var s2 := if t1.state == Entering || t1.state == EntryAuthorized then Set(s1, t1.(state := Positioning)) else s1;
    var s3 := EvaluatePosition(s2);
    if s3.tx.value.position == PosAccepted then TryReady(s3) else s3
  }

  lemma SettleKeeps(cfg: Config, s1: Eng)
    requires s1.tx.Some? && Inv(cfg, s1)
    ensures Kept(cfg, s1, Settle(s1))
  {
    hide Story, Counting, OutputsOK, Quiet;
    var t1 := s1.tx.value;
    QuietRefl(cfg, s1);
    var s2 := if t1.state == Entering || t1.state == EntryAuthorized then Set(s1, t1.(state := Positioning)) else s1;
    if s2 != s1 { StateKeeps(cfg, s1, Positioning); }
    PositionKeeps(cfg, s2);
    KeptTrans(cfg, s1, s2, EvaluatePosition(s2));
    if EvaluatePosition(s2).tx.value.position == PosAccepted {
      ReadyKeeps(cfg, EvaluatePosition(s2));
      KeptTrans(cfg, s1, EvaluatePosition(s2), Settle(s1));
    }
  }

  lemma LeavingKeeps(cfg: Config, env: Env, s: Eng, p: Position)
    requires s.tx.Some? && Inv(cfg, s)
    ensures Kept(cfg, s, Leaving(env, s, p))
  {
    var r := Leaving(env, s, p);
    CountingCarries(cfg, s, r);
  }

  lemma OnPositionKeeps(cfg: Config, env: Env, s: Eng, p: Position)
    requires Inv(cfg, s)
    ensures var r := OnPosition(cfg, env, s, p);
            && Inv(cfg, r) && (s.tx.Some? ==> Quiet(s, r))
            && (s.tx.None? && r.tx.Some? ==> !r.tx.value.outputs.exitOpen && r.tx.value.accepted.None? && Offers(r.marks) == 0)
  {
    var s0 := s;
    if s.tx.None? && p.entryPresent {
      StartKeeps(cfg, env, s, p.observed);
      s0 := Start(env, s, p.observed);
    }
    if s0.tx.Some? {
      QuietRefl(cfg, s0);
      var s1 := Set(s0, s0.tx.value.(pos := p));
      RewriteKeeps(cfg, s0, s1.tx.value);
      if s1.tx.value.state != Completed && s1.tx.value.state != FaultLockout {
        var a := Approaching(cfg, s1);
        ApproachingKeeps(cfg, s1);
        OnDeckKeeps(cfg, a, p);
        LeavingKeeps(cfg, env, OnDeck(a, p), p);
        KeptTrans(cfg, s0, s1, a);
        KeptTrans(cfg, s0, a, OnDeck(a, p));
        KeptTrans(cfg, s0, OnDeck(a, p), OnPosition(cfg, env, s, p));
      }
    }
  }

  lemma ReceiveKeeps(cfg: Config, s: Eng, a: Audited, faults: map<Device, Fault>)
    requires Inv(cfg, s) && a.rawRef.Present()
    ensures var r := Receive(s, a).(faults := faults); Inv(cfg, r) && (s.tx.Some? ==> Quiet(s, r))
  {
    var r := Receive(s, a).(faults := faults);
    if s.tx.Some? {
      RewriteKeeps(cfg, s, r.tx.value);
      CountingCarries(cfg, Set(s, r.tx.value), r);
    }
  }

  lemma EnterWeighingKeeps(cfg: Config, s: Eng)
    requires s.tx.Some? && Inv(cfg, s)
    ensures Kept(cfg, s, EnterWeighing(cfg, s))
  {
    ApproachingKeeps(cfg, s);
    var a := Approaching(cfg, s);
    ReadyKeeps(cfg, a);
    KeptTrans(cfg, s, a, TryReady(a));
    if TryReady(a).tx.value.state == ReadyToWeigh {
      StateKeeps(cfg, TryReady(a), Weighing);
      KeptTrans(cfg, s, TryReady(a), EnterWeighing(cfg, s));
    }
  }

  /** A weighed frame: the streak is still the longest one, and only the threshold still bounds it. */
  ghost predicate Weighed(cfg: Config, s: Eng, s': Eng, a: Audited) {
    && s.tx.Some? && s'.tx.Some?
    && s'.frames == s.frames + [a] && s'.marks == s.marks
    && s'.tx.value == s.tx.value.(confirmations := s'.tx.value.confirmations)
    && s'.lastScale == s.lastScale
    && LongestStreak(cfg, s'.frames, s'.tx.value.confirmations)
    && s'.stableBase == (if s'.tx.value.confirmations == 0 then None else Some(a))
    && (Offers(s.marks) == 0 && s.tx.value.state != FaultLockout ==> s'.tx.value.confirmations <= cfg.confirmations)
  }

  lemma WeighKeeps(cfg: Config, s: Eng, a: Audited)
    requires s.tx.Some? && Inv(cfg, s)
    ensures Weighed(cfg, s, Weigh(cfg, s, a), a)
  {
    hide Story, OutputsOK, Placed;
    StreakStep(cfg, s.frames, s.tx.value.confirmations, a);
  }

  lemma WeighedCounts(cfg: Config, s: Eng, s1: Eng, a: Audited)
    requires s.tx.Some? && Inv(cfg, s) && Weighed(cfg, s, s1, a) && a.rawRef.Present() && a.reading.Sound()
    ensures s1.tx.value.confirmations < cfg.confirmations ==> Inv(cfg, s1)
    ensures forall i :: 0 <= i < |s1.frames| ==> s1.frames[i].rawRef.Present() && s1.frames[i].reading.Sound()
    ensures s1.tx.value.confirmations > 0 ==> Qualifying(cfg, a)
  {
    assert s1.frames[|s1.frames| - 1] == a;
  }

  lemma CommitStory(cfg: Config, env: Env, s: Eng, s1: Eng, a: Audited)
    requires s.tx.Some? && Inv(cfg, s) && s.tx.value.state == Weighing && Weighed(cfg, s, s1, a)
    requires a.rawRef.Present() && Qualifying(cfg, a) && env.sink.Store?
    ensures var out := CommitTicket(cfg, env, s1, a);
            && Story(cfg, s.tx.value.id, out.eng.marks) && OutputsOK(out.eng.tx.value, out.eng.marks)
            && Offers(out.eng.marks) == Offers(s.marks) + 1
  {
    var out := CommitTicket(cfg, env, s1, a);
    var m := Offered(out.offered.value, out.ok);
    Marked(s.marks, m);
    assert out.eng.marks == s.marks + [m];
    assert MarkOK(cfg, s.tx.value.id, m);
  }

  lemma CommitCounts(cfg: Config, env: Env, s: Eng, s1: Eng, a: Audited)
    requires s.tx.Some? && Inv(cfg, s) && Weighed(cfg, s, s1, a)
    requires a.rawRef.Present() && a.reading.Sound() && s1.tx.value.confirmations > 0
    ensures var out := CommitTicket(cfg, env, s1, a);
            Offers(out.eng.marks) > 0 || out.eng.tx.value.state == FaultLockout ==> Counting(cfg, out.eng)
  {
    WeighedCounts(cfg, s, s1, a);
    var out := CommitTicket(cfg, env, s1, a);
    assert out.eng.frames == s1.frames && out.eng.stableBase == s1.stableBase;
    assert s1.stableBase == Some(s1.frames[|s1.frames| - 1]);
  }

  lemma CommitKeeps(cfg: Config, env: Env, s: Eng, s1: Eng, a: Audited)
    requires s.tx.Some? && Inv(cfg, s) && s.tx.value.state == Weighing && Weighed(cfg, s, s1, a)
    requires a.rawRef.Present() && a.reading.Sound() && s1.tx.value.confirmations >= cfg.confirmations
    ensures var out := CommitTicket(cfg, env, s1, a); Inv(cfg, out.eng) && Follows(env, s, out)
  {
    hide Story, LongestStreak, Counting, CommitTicket, OutputsOK, Placed;
    CommitCounts(cfg, env, s, s1, a);
    CommitShape(cfg, env, s1, a);
    if env.sink.Store? {
      WeighedCounts(cfg, s, s1, a);
      CommitStory(cfg, env, s, s1, a);
      ExitNeedsNothing(CommitTicket(cfg, env, s1, a).eng);
    } else {
      LockedOutputs(cfg, s, s1, CommitTicket(cfg, env, s1, a).eng);
    }
  }

  lemma ExitNeedsNothing(s: Eng)
    requires s.tx.Some? && (s.tx.value.state == ExitAuthorized || s.tx.value.state == FaultLockout)
    ensures Placed(s.tx.value.state, s.marks)
  {
  }

  lemma LockedOutputs(cfg: Config, s: Eng, s1: Eng, r: Eng)
    requires s.tx.Some? && s1.tx.Some? && OutputsOK(s.tx.value, s.marks) && r == Lock(s1)
    requires s1.marks == s.marks && s1.tx.value == s.tx.value.(confirmations := s1.tx.value.confirmations)
    ensures OutputsOK(r.tx.value, r.marks) && Placed(r.tx.value.state, r.marks)
  {
    hide Story, LongestStreak, Counting;
  }

  lemma CommitShape(cfg: Config, env: Env, s: Eng, a: Audited)
    requires s.tx.Some?
    ensures var out, t := CommitTicket(cfg, env, s, a), s.tx.value;
            && out.eng.tx.Some? && out.eng.tx.value.id == t.id && out.eng.lastScale == s.lastScale
            && (env.sink.NoStore? ==> out == Out(Lock(s), false, None))
            && (env.sink.Store? ==>
                 && out.offered == Some(TicketFor(cfg, env, t, a)) && out.ok == env.sink.commit(out.offered.value)
                 && (if out.ok
                     then && out.eng.tx.value.state == ExitAuthorized && out.eng.tx.value.ticketID == out.offered.value.id
                          && out.eng.tx.value.accepted == Some(out.offered.value.weight)
                     else out.eng.tx.value.state == FaultLockout && out.eng.tx.value.outputs == ALL_OFF
                          && out.eng.tx.value.accepted == t.accepted))
  {
  }

  /** What a step that weighs does beyond keeping the invariant. */
  ghost predicate Follows(env: Env, s: Eng, out: Out) {
    && (s.tx.Some? && s.tx.value.state == FaultLockout ==>
         out.offered.None? && out.eng.tx.Some? && out.eng.tx.value.state == FaultLockout && out.eng.tx.value.outputs == ALL_OFF)
    && (s.tx.Some? && out.eng.tx.Some? ==>
         && out.eng.tx.value.id == s.tx.value.id
         && Offers(out.eng.marks) == Offers(s.marks) + (if out.offered.Some? then 1 else 0))
    && (s.tx.None? ==> out.offered.None?)
    && (out.eng.tx.Some? && out.eng.tx.value.accepted.Some? ==>
         (out.offered.Some? && env.sink.Store? && env.sink.commit(out.offered.value)) || (s.tx.Some? && s.tx.value.accepted.Some?))
    && (s.tx.Some? && out.eng.tx.None? ==> s.tx.value.state == Completed)
    && (out.offered.Some? ==> env.sink.Store? && s.tx.Some? && out.eng.tx.Some? && out.offered.value.txID == s.tx.value.id
                              && out.offered.value.id == "ticket-" + env.suffix)
    && (out.eng.tx.Some? && out.eng.tx.value.outputs.exitOpen ==>
         if out.offered.Some?
         then && env.sink.commit(out.offered.value)
              && out.eng.tx.value.accepted == Some(out.offered.value.weight) && out.eng.tx.value.ticketID == out.offered.value.id
         else && s.tx.Some? && s.tx.value.outputs.exitOpen
              && out.eng.tx.value.accepted == s.tx.value.accepted && out.eng.tx.value.ticketID == s.tx.value.ticketID)
  }

  lemma WeighAndCommitKeeps(cfg: Config, env: Env, s: Eng, a: Audited)
    requires s.tx.Some? && Inv(cfg, s) && a.rawRef.Present() && a.reading.Sound()
    ensures var out := WeighAndCommit(cfg, env, s, a); Inv(cfg, out.eng) && Follows(env, s, out)
  {
    var out := WeighAndCommit(cfg, env, s, a);
    if s.tx.value.state == Weighing {
      WeighKeeps(cfg, s, a);
      var s1 := Weigh(cfg, s, a);
      WeighedCounts(cfg, s, s1, a);
      if s1.tx.value.confirmations >= cfg.confirmations {
        CommitKeeps(cfg, env, s, s1, a);
      }
    }
  }

  lemma QuietFollows(cfg: Config, env: Env, s: Eng, s1: Eng, out: Out)
    requires s.tx.Some? && Kept(cfg, s, s1) && Follows(env, s1, out)
    requires s1.tx.value.state != Completed && s.tx.value.state != FaultLockout
    ensures Follows(env, s, out)
  {
  }

  /** A scale frame either weighs, in a state the earlier helpers lead to, or counts for nothing. */
  lemma OnScaleCases(cfg: Config, env: Env, s: Eng, a: Audited) returns (w: Option<Eng>)
    requires Inv(cfg, s)
    ensures w.Some? ==>
              && a.rawRef.Present() && a.reading.Sound()
              && s.tx.Some? && s.tx.value.state != Completed && s.tx.value.state != FaultLockout
              && Kept(cfg, s, w.value) && w.value.tx.value.state != Completed
              && OnScale(cfg, env, s, a) == WeighAndCommit(cfg, env, w.value, a)
    ensures w.None? ==> var out := OnScale(cfg, env, s, a);
              && Inv(cfg, out.eng) && Follows(env, s, out) && out.offered.None? && out.eng.frames == s.frames
  {
    var out := OnScale(cfg, env, s, a);
    w := None;
    if a.rawRef.Present() && !a.reading.Sound() {
      var f := Receive(s, a).(faults := Receive(s, a).faults[Scale := ScaleFault(a.reading)]);
      ReceiveKeeps(cfg, s, a, f.faults);
      if f.tx.Some? {
        SyncKeeps(cfg, f);
        LockKeeps(cfg, SyncFaults(f));
      }
    } else if a.rawRef.Present() {
      var f := Receive(s, a).(faults := Receive(s, a).faults - {Scale});
      ReceiveKeeps(cfg, s, a, f.faults);
      if f.tx.Some? && f.tx.value.state != FaultLockout {
        SyncKeeps(cfg, f);
        KeptTrans(cfg, s, f, SyncFaults(f));
        if f.tx.value.state != Completed {
          EnterWeighingKeeps(cfg, SyncFaults(f));
          EnterWeighingNeverCompletes(cfg, SyncFaults(f));
          w := Some(EnterWeighing(cfg, SyncFaults(f)));
          KeptTrans(cfg, s, SyncFaults(f), w.value);
        }
      }
    }
  }

  lemma OnScaleKeeps(cfg: Config, env: Env, s: Eng, a: Audited)
    requires Inv(cfg, s)
    ensures var out := OnScale(cfg, env, s, a); Inv(cfg, out.eng) && Follows(env, s, out)
  {
    var w := OnScaleCases(cfg, env, s, a);
    if w.Some? {
      WeighAndCommitKeeps(cfg, env, w.value, a);
      QuietFollows(cfg, env, s, w.value, OnScale(cfg, env, s, a));
    }
  }

  lemma EnterWeighingNeverCompletes(cfg: Config, s: Eng)
    requires s.tx.Some? && s.tx.value.state != Completed
    ensures EnterWeighing(cfg, s).tx.value.state != Completed
  {
  }

  lemma FaultsKeep(cfg: Config, s: Eng, faults: map<Device, Fault>)
    requires s.tx.Some? && Inv(cfg, s)
    ensures Kept(cfg, s, SyncFaults(s.(faults := faults)))
  {
    RewriteKeeps(cfg, s, s.tx.value.(faults := faults));
    CountingCarries(cfg, s, SyncFaults(s.(faults := faults)));
  }

  lemma AfterFaultKeeps(cfg: Config, env: Env, s: Eng, d: Device)
    requires s.tx.Some? && Inv(cfg, s)
    ensures Kept(cfg, s, AfterFault(cfg, env, s, d))
  {
    QuietRefl(cfg, s);
    var s1 := if d == FrontSensor || d == RearSensor then EvaluatePosition(s) else s;
    if s1 != s { PositionKeeps(cfg, s); }
    IdentityKeeps(cfg, env, s1);
    KeptTrans(cfg, s, s1, EvaluateIdentity(cfg, env, s1));
  }

  lemma OnFaultKeeps(cfg: Config, env: Env, s: Eng, f: Fault)
    requires Inv(cfg, s)
    ensures var r := OnFault(cfg, env, s, f); Inv(cfg, r) && (s.tx.Some? ==> Quiet(s, r)) && (s.tx.None? ==> r.tx.None?)
  {
    if s.tx.Some? {
      var s1 := SyncFaults(s.(faults := s.faults[f.device := f]));
      FaultsKeep(cfg, s, s.faults[f.device := f]);
      if f.Locking() {
        LockKeeps(cfg, s1);
        KeptTrans(cfg, s, s1, Lock(s1));
      } else {
        ModeKeeps(cfg, s1);
        KeptTrans(cfg, s, s1, UpdateMode(s1));
        AfterFaultKeeps(cfg, env, UpdateMode(s1), f.device);
        KeptTrans(cfg, s, UpdateMode(s1), OnFault(cfg, env, s, f));
      }
    }
  }

  lemma OnClearKeeps(cfg: Config, env: Env, s: Eng, d: Device)
    requires Inv(cfg, s)
    ensures var r := OnClear(cfg, env, s, d); Inv(cfg, r) && (s.tx.Some? ==> Quiet(s, r)) && (s.tx.None? ==> r.tx.None?)
  {
    if s.tx.Some? {
      var s1 := SyncFaults(s.(faults := s.faults - {d}));
      FaultsKeep(cfg, s, s.faults - {d});
      ModeKeeps(cfg, s1);
      KeptTrans(cfg, s, s1, UpdateMode(s1));
      AfterFaultKeeps(cfg, env, UpdateMode(s1), d);
      KeptTrans(cfg, s, UpdateMode(s1), OnClear(cfg, env, s, d));
    }
  }

  lemma OnGrantKeeps(cfg: Config, env: Env, s: Eng, o: Override)
    requires Inv(cfg, s)
    ensures var r := OnGrant(cfg, env, s, o); Inv(cfg, r.eng) && (s.tx.Some? ==> Quiet(s, r.eng)) && (s.tx.None? ==> r.eng == s)
  {
    hide Story, Counting, OutputsOK, Placed;
    if Grantable(s, o) {
      var dated := if o.authorizedAt == 0 then o.(authorizedAt := env.now) else o;
      var s0 := Set(s, s.tx.value.(overrides := s.tx.value.overrides + [dated]));
      RewriteKeeps(cfg, s, s0.tx.value);
      ModeKeeps(cfg, s0);
      var s1 := UpdateMode(s0);
      KeptTrans(cfg, s, s0, s1);
      GrantTail(cfg, env, s1, o.device);
      KeptTrans(cfg, s, s1, OnGrant(cfg, env, s, o).eng);
    } else if s.tx.Some? {
      QuietRefl(cfg, s);
    }
  }

  lemma GrantTail(cfg: Config, env: Env, s1: Eng, d: Device)
    requires s1.tx.Some? && Inv(cfg, s1)
    ensures var s2 := if d == FrontSensor || d == RearSensor then TryReady(EvaluatePosition(s1)) else s1;
            Kept(cfg, s1, EvaluateIdentity(cfg, env, s2))
  {
    QuietRefl(cfg, s1);
    var s2 := s1;
    if d == FrontSensor || d == RearSensor {
      PositionKeeps(cfg, s1);
      ReadyKeeps(cfg, EvaluatePosition(s1));
      s2 := TryReady(EvaluatePosition(s1));
      KeptTrans(cfg, s1, EvaluatePosition(s1), s2);
    }
    IdentityKeeps(cfg, env, s2);
    KeptTrans(cfg, s1, s2, EvaluateIdentity(cfg, env, s2));
  }

  lemma ObserveKeeps(cfg: Config, env: Env, s: Eng, t: Tx)
    requires s.tx.Some? && Inv(cfg, s) && t == s.tx.value.(tag := t.tag, plate := t.plate)
    ensures Kept(cfg, s, EvaluateIdentity(cfg, env, Set(s, t)))
  {
    RewriteKeeps(cfg, s, t);
    IdentityKeeps(cfg, env, Set(s, t));
    KeptTrans(cfg, s, Set(s, t), EvaluateIdentity(cfg, env, Set(s, t)));
  }

  lemma QuietStepFollows(cfg: Config, env: Env, s: Eng, r: Eng, ok: bool)
    requires Inv(cfg, s) && Inv(cfg, r)
    requires s.tx.Some? ==> Quiet(s, r)
    requires s.tx.None? && r.tx.Some? ==> !r.tx.value.outputs.exitOpen && r.tx.value.accepted.None?
    ensures Follows(env, s, Out(r, ok, None))
  {
  }

  lemma UnchangedFollows(cfg: Config, env: Env, s: Eng, ok: bool)
    requires Inv(cfg, s)
    ensures Follows(env, s, Out(s, ok, None))
  {
    if s.tx.Some? { QuietRefl(cfg, s); }
    QuietStepFollows(cfg, env, s, s, ok);
  }

  lemma TagKeeps(cfg: Config, env: Env, s: Eng, tag: TagRead)
    requires Inv(cfg, s)
    ensures var out := Step(cfg, env, s, SeeTag(tag)); Inv(cfg, out.eng) && Follows(env, s, out)
  {
    if s.tx.Some? && Belongs(s.tx.value, tag.observed) {
      ObserveKeeps(cfg, env, s, s.tx.value.(tag := tag));
      QuietStepFollows(cfg, env, s, EvaluateIdentity(cfg, env, Set(s, s.tx.value.(tag := tag))), true);
    } else {
      UnchangedFollows(cfg, env, s, true);
    }
  }

  lemma PlateKeeps(cfg: Config, env: Env, s: Eng, plate: PlateRead)
    requires Inv(cfg, s)
    ensures var out := Step(cfg, env, s, SeePlate(plate)); Inv(cfg, out.eng) && Follows(env, s, out)
  {
    if s.tx.Some? && Belongs(s.tx.value, plate.observed) {
      ObserveKeeps(cfg, env, s, s.tx.value.(plate := plate));
      QuietStepFollows(cfg, env, s, EvaluateIdentity(cfg, env, Set(s, s.tx.value.(plate := plate))), true);
    } else {
      UnchangedFollows(cfg, env, s, true);
    }
  }

  /** Every step keeps the invariant and does to the transaction only what `Follows` allows: exit outputs come on only with
      a ticket the store accepted, and a transaction is never swapped for another in one step. */
  lemma StepKeeps(cfg: Config, env: Env, s: Eng, e: Event)
    requires Inv(cfg, s)
    ensures var out := Step(cfg, env, s, e); Inv(cfg, out.eng) && Follows(env, s, out)
  {
    match e
    case SeePosition(p) =>
      OnPositionKeeps(cfg, env, s, p);
      QuietStepFollows(cfg, env, s, OnPosition(cfg, env, s, p), true);
    case SeeTag(tag) => TagKeeps(cfg, env, s, tag);
    case SeePlate(plate) => PlateKeeps(cfg, env, s, plate);
    case SeeScale(a) => OnScaleKeeps(cfg, env, s, a);
    case SetFault(f) =>
      OnFaultKeeps(cfg, env, s, f);
      QuietStepFollows(cfg, env, s, OnFault(cfg, env, s, f), true);
    case ClearFault(d) =>
      OnClearKeeps(cfg, env, s, d);
      QuietStepFollows(cfg, env, s, OnClear(cfg, env, s, d), true);
    case Grant(o) =>
      OnGrantKeeps(cfg, env, s, o);
      QuietStepFollows(cfg, env, s, OnGrant(cfg, env, s, o).eng, OnGrant(cfg, env, s, o).ok);
    case Reset => UnchangedFollows(cfg, env, s, false);
  }

  lemma NewEngineInv(cfg: Config)
    requires cfg.confirmations > 0
    ensures Inv(cfg, NEW_ENGINE)
  {
  }

  lemma {:induction false} EveryStateInv(cfg: Config, s: Eng, script: seq<Timed>)
    requires Inv(cfg, s)
    ensures Inv(cfg, Run(cfg, s, script))
  {
    if script != [] {
      var last := script[|script| - 1];
      EveryStateInv(cfg, s, script[..|script| - 1]);
      StepKeeps(cfg, last.env, Run(cfg, s, script[..|script| - 1]), last.event);
    }
  }
}
