/**
 The pair rules of the business cycle (internal/domain/cycle.go) and the three plate normalisers.
 */
module Pairing {
  import opened Domain

  /** Limits that are zero or negative are not configured. */
  datatype Policy = Policy(
    minElapsed: int, maxElapsed: int, minGross: int, maxGross: int,
    minTare: int, maxTare: int, minNet: int, maxNet: int)

  const NO_LIMITS := Policy(0, 0, 0, 0, 0, 0, 0, 0)

  datatype Verdict = Verdict(valid: bool, status: CycleStatus, elapsed: int, gross: int, tare: int, net: int)

  // ---------- plate normalisation ----------

  /** The part of the Unicode tables that plate keys depend on. */
  datatype Unicode = Unicode(upper: char -> char, alnum: char -> bool)

  predicate IsDigit(c: char) { '0' <= c <= '9' }
  predicate IsUpper(c: char) { 'A' <= c <= 'Z' }
  predicate IsLower(c: char) { 'a' <= c <= 'z' }

  function AsciiUpper(c: char): char {
    if IsLower(c) then (c as int - 'a' as int + 'A' as int) as char else c
  }

  predicate Ascii(s: string) {
    forall i :: 0 <= i < |s| ==> s[i] < 128 as char
  }

  /** A table that is right about ASCII; what it says elsewhere is left open. */
  ghost predicate RightOnAscii(u: Unicode) {
    forall c: char :: c < 128 as char ==>
      u.upper(c) == AsciiUpper(c) && (u.alnum(c) <==> IsDigit(c) || IsUpper(c) || IsLower(c))
  }

  /** The key of the engine and of the store: upper-case, then keep letters and digits. */
  function VehicleKey(u: Unicode, s: string): string {
    if s == "" then "" else
      var c := u.upper(s[0]);
      (if u.alnum(c) then [c] else []) + VehicleKey(u, s[1..])
  }

  /** The key of the pair rules: ASCII letters and digits only. */
  function CycleIdentity(s: string): string {
    if s == "" then "" else
      (if IsLower(s[0]) || IsUpper(s[0]) || IsDigit(s[0]) then [AsciiUpper(s[0])] else []) + CycleIdentity(s[1..])
  }

  lemma {:induction false} KeysAgreeOnAscii(u: Unicode, s: string)
    requires RightOnAscii(u) && Ascii(s)
    ensures VehicleKey(u, s) == CycleIdentity(s)
  {
    if s != "" {
      assert s[0] < 128 as char;
      assert AsciiUpper(s[0]) < 128 as char;
      KeysAgreeOnAscii(u, s[1..]);
    }
  }

  lemma Regroup(a: string, b: string, c: string)
    ensures (a + b) + c == a + (b + c)
  {
  }

  lemma {:induction false} KeyConcat(u: Unicode, a: string, b: string)
    ensures VehicleKey(u, a + b) == VehicleKey(u, a) + VehicleKey(u, b)
  {
    if a == "" {
      assert a + b == b;
    } else {
      assert (a + b)[1..] == a[1..] + b && (a + b)[0] == a[0];
      KeyConcat(u, a[1..], b);
      var c := u.upper(a[0]);
      Regroup(if u.alnum(c) then [c] else [], VehicleKey(u, a[1..]), VehicleKey(u, b));
    }
  }

  lemma {:induction false} IdentityConcat(a: string, b: string)
    ensures CycleIdentity(a + b) == CycleIdentity(a) + CycleIdentity(b)
  {
    if a == "" {
      assert a + b == b;
    } else {
      assert (a + b)[1..] == a[1..] + b && (a + b)[0] == a[0];
      IdentityConcat(a[1..], b);
      Regroup(if IsLower(a[0]) || IsUpper(a[0]) || IsDigit(a[0]) then [AsciiUpper(a[0])] else [], CycleIdentity(a[1..]), CycleIdentity(b));
    }
  }

  /** The store's builder loop. */
  method NormalizeVehicleKey(u: Unicode, s: string) returns (b: string)
    ensures b == VehicleKey(u, s)
  {
    b := "";
    for i := 0 to |s|
      invariant b == VehicleKey(u, s[..i])
    {
      var r := u.upper(s[i]);
      KeyConcat(u, s[..i], [s[i]]);
      assert s[..i + 1] == s[..i] + [s[i]];
      if u.alnum(r) {
        b := b + [r];
      }
    }
    assert s[..|s|] == s;
  }

  /** The pair rules' slice-filling loop. */
  method NormalizeCycleIdentity(s: string) returns (out: string)
    ensures out == CycleIdentity(s)
  {
    out := [];
    for i := 0 to |s|
      invariant out == CycleIdentity(s[..i])
    {
      var r := s[i];
      IdentityConcat(s[..i], [r]);
      assert s[..i + 1] == s[..i] + [r];
      if IsLower(r) {
        out := out + [(r as int - 'a' as int + 'A' as int) as char];
      } else if IsUpper(r) || IsDigit(r) {
        out := out + [r];
      }
    }
    assert s[..|s|] == s;
  }

  // ---------- pair validation ----------

  predicate Within(v: int, min: int, max: int) {
    !(min > 0 && v < min) && !(max > 0 && v > max)
  }

  predicate FirstPassOK(p: WeighPass) {
    && p.number == 1
    && p.direction == AToB
    && CycleIdentity(p.plate) != ""
    && p.weight.rawRef.Present()
    && p.weight.kg > 0
    && p.weight.observed != 0
  }

  function ValidatePair(first: WeighPass, second: WeighPass, policy: Policy): Verdict {
    var gross := first.weight.kg;
    var tare := second.weight.kg;
    var net := gross - tare;
    var elapsed := second.weight.observed - first.weight.observed;
    var invalid := (s: CycleStatus) => Verdict(false, s, elapsed, gross, tare, net);
    if first.number != 1 || first.direction != AToB then invalid(PairWeightInvalid)
    else if second.number != 2 || second.direction != BToA then invalid(PairWeightInvalid)
    else if CycleIdentity(first.plate) == "" || CycleIdentity(second.plate) == ""
            || CycleIdentity(first.plate) != CycleIdentity(second.plate) then invalid(WrongTruck)
    else if first.rfid != "" && second.rfid != "" && first.rfid != second.rfid then invalid(WrongTruck)
    else if !first.weight.rawRef.Present() || !second.weight.rawRef.Present() then invalid(PairWeightInvalid)
    else if elapsed <= 0 then invalid(PairTimeInvalid)
    else if policy.minElapsed > 0 && elapsed < policy.minElapsed then invalid(PairTimeInvalid)
    else if policy.maxElapsed > 0 && elapsed > policy.maxElapsed then invalid(PairTimeInvalid)
    else if !Within(gross, policy.minGross, policy.maxGross) then invalid(PairWeightInvalid)
    else if !Within(tare, policy.minTare, policy.maxTare) then invalid(PairWeightInvalid)
    else if net <= 0 then invalid(PairWeightInvalid)
    else if !Within(net, policy.minNet, policy.maxNet) then invalid(PairWeightInvalid)
    else Verdict(true, Complete, elapsed, gross, tare, net)
  }

  /** Two passes of one truck: the same non-empty plate and no contradicting tag. */
  predicate SameTruck(first: WeighPass, second: WeighPass) {
    && CycleIdentity(first.plate) == CycleIdentity(second.plate) != ""
    && (first.rfid == "" || second.rfid == "" || first.rfid == second.rfid)
  }

  /** What every completed pair is, whatever the site configures. */
  predicate SoundPair(first: WeighPass, second: WeighPass) {
    && first.number == 1 && first.direction == AToB
    && second.number == 2 && second.direction == BToA
    && SameTruck(first, second)
    && first.weight.rawRef.Present() && second.weight.rawRef.Present()
    && first.weight.observed < second.weight.observed
    && second.weight.kg < first.weight.kg
  }

  /** The configured limits, each switched off by a value that is not positive. */
  predicate MeetsLimits(first: WeighPass, second: WeighPass, p: Policy) {
    var elapsed, gross, tare := second.weight.observed - first.weight.observed, first.weight.kg, second.weight.kg;
    && (p.minElapsed > 0 ==> elapsed >= p.minElapsed) && (p.maxElapsed > 0 ==> elapsed <= p.maxElapsed)
    && (p.minGross > 0 ==> gross >= p.minGross) && (p.maxGross > 0 ==> gross <= p.maxGross)
    && (p.minTare > 0 ==> tare >= p.minTare) && (p.maxTare > 0 ==> tare <= p.maxTare)
    && (p.minNet > 0 ==> gross - tare >= p.minNet) && (p.maxNet > 0 ==> gross - tare <= p.maxNet)
  }

  /** The cascade accepts exactly the sound pairs within the limits, and then reports their net weight. */
  lemma PairAcceptance(first: WeighPass, second: WeighPass, p: Policy)
    ensures ValidatePair(first, second, p).valid <==> SoundPair(first, second) && MeetsLimits(first, second, p)
    ensures var v := ValidatePair(first, second, p);
            && v.gross == first.weight.kg && v.tare == second.weight.kg && v.net == v.gross - v.tare
            && v.elapsed == second.weight.observed - first.weight.observed
            && (v.valid <==> v.status == Complete)
  {
  }

  /** The passes are a first and a second one, in this order. */
  predicate InTurn(first: WeighPass, second: WeighPass) {
    first.number == 1 && first.direction == AToB && second.number == 2 && second.direction == BToA
  }

  predicate Referenced(first: WeighPass, second: WeighPass) {
    first.weight.rawRef.Present() && second.weight.rawRef.Present()
  }

  /** The second weight came later, neither too soon nor too late. */
  predicate Timely(first: WeighPass, second: WeighPass, p: Policy) {
    var elapsed := second.weight.observed - first.weight.observed;
    elapsed > 0 && (p.minElapsed > 0 ==> elapsed >= p.minElapsed) && (p.maxElapsed > 0 ==> elapsed <= p.maxElapsed)
  }

  /** Why a pair is rejected: the wrong truck before a bad time, a bad time before bad weights. */
  lemma VerdictExactly(first: WeighPass, second: WeighPass, p: Policy)
    ensures var s := ValidatePair(first, second, p).status;
            && (s == Complete <==> SoundPair(first, second) && MeetsLimits(first, second, p))
            && (s == WrongTruck <==> InTurn(first, second) && !SameTruck(first, second))
            && (s == PairTimeInvalid <==>
                 InTurn(first, second) && SameTruck(first, second) && Referenced(first, second) && !Timely(first, second, p))
            && (s == Complete || s == WrongTruck || s == PairTimeInvalid || s == PairWeightInvalid)
  {
  }

  /** A pair the coordinator accepts under its policy passes the store's intrinsic re-check with the same figures. */
  lemma AcceptedPairIsIntrinsicallyValid(first: WeighPass, second: WeighPass, p: Policy)
    ensures ValidatePair(first, second, p).valid ==> ValidatePair(first, second, NO_LIMITS) == ValidatePair(first, second, p)
  {
    PairAcceptance(first, second, p);
    PairAcceptance(first, second, NO_LIMITS);
  }

  /** A return weighed once the window is over never pairs, whatever else holds. */
  lemma LatePairNeverValid(first: WeighPass, second: WeighPass, p: Policy, at: Time)
    requires p.maxElapsed > 0 && at - first.weight.observed > p.maxElapsed
    requires second.weight.observed >= at
    ensures !ValidatePair(first, second, p).valid
  {
  }
}
