/**
 The two hash-chained journals (internal/adapters/auditjournal and rawjournal); they differ only in the type of their events.
 */
module Journals {
  import opened Domain

  datatype Record<E> = Record(number: nat, prevHash: string, event: E, hash: string)

  /** A line of the file: empty, unreadable, or a record. */
  datatype Line<E> = Blank | Garbage | Row(record: Record<E>)

  // ---------- what a file means ----------

  /** The records of a file, in order. */
  function Rows<E>(lines: seq<Line<E>>): (rs: seq<Record<E>>)
    ensures |rs| <= |lines|
  {
    if lines == [] then []
    else
      var n := |lines| - 1;
      Rows(lines[..n]) + if lines[n].Row? then [lines[n].record] else []
  }

  predicate Readable<E>(lines: seq<Line<E>>) {
    forall i :: 0 <= i < |lines| ==> !lines[i].Garbage?
  }

  function LastHash<E>(rs: seq<Record<E>>): string {
    if rs == [] then "" else rs[|rs| - 1].hash
  }

  function LastNumber<E>(rs: seq<Record<E>>): nat {
    if rs == [] then 0 else rs[|rs| - 1].number
  }

  predicate Follows<E>(h: (nat, string, E) -> string, rs: seq<Record<E>>, r: Record<E>) {
    r.number == |rs| + 1 && r.prevHash == LastHash(rs) && r.hash == h(r.number, r.prevHash, r.event)
  }

  /** Numbered from 1, each naming its predecessor's hash and carrying its own. */
  predicate Chained<E>(h: (nat, string, E) -> string, rs: seq<Record<E>>) {
    forall i {:trigger rs[i]} :: 0 <= i < |rs| ==> Follows(h, rs[..i], rs[i])
  }

  predicate Verified<E>(h: (nat, string, E) -> string, lines: seq<Line<E>>) {
    Readable(lines) && Chained(h, Rows(lines))
  }

  ghost predicate Injective<E(!new)>(h: (nat, string, E) -> string) {
    forall n, p, e, n', p', e' {:trigger h(n, p, e), h(n', p', e')} :: h(n, p, e) == h(n', p', e') ==> n == n' && p == p' && e == e'
  }

  lemma ChainedPrefix<E>(h: (nat, string, E) -> string, rs: seq<Record<E>>, k: nat)
    requires Chained(h, rs) && k <= |rs|
    ensures Chained(h, rs[..k])
  {
    forall i | 0 <= i < k ensures Follows(h, rs[..k][..i], rs[..k][i]) {
      assert rs[..k][..i] == rs[..i] && rs[..k][i] == rs[i];
    }
  }

  lemma ChainedNext<E>(h: (nat, string, E) -> string, rs: seq<Record<E>>, r: Record<E>)
    ensures Chained(h, rs + [r]) <==> Chained(h, rs) && Follows(h, rs, r)
  {
    var next := rs + [r];
    assert next[..|rs|] == rs;
    if Chained(h, next) {
      ChainedPrefix(h, next, |rs|);
      assert Follows(h, next[..|rs|], next[|rs|]);
    }
    if Chained(h, rs) && Follows(h, rs, r) {
      forall i | 0 <= i < |next| ensures Follows(h, next[..i], next[i]) {
        if i < |rs| { assert next[..i] == rs[..i] && next[i] == rs[i]; }
      }
    }
  }

  lemma {:induction false} RowsPrefix<E>(lines: seq<Line<E>>, k: nat)
    requires k <= |lines|
    ensures Rows(lines[..k]) <= Rows(lines)
  {
    if k < |lines| {
      var n := |lines| - 1;
      RowsPrefix(lines[..n], k);
      assert lines[..n][..k] == lines[..k];
    } else {
      assert lines[..k] == lines;
    }
  }

  /** Every prefix of a file that verifies verifies. */
  lemma PrefixVerifies<E>(h: (nat, string, E) -> string, lines: seq<Line<E>>, k: nat)
    requires Verified(h, lines) && k <= |lines|
    ensures Verified(h, lines[..k])
  {
    RowsPrefix(lines, k);
    var a, b := Rows(lines[..k]), Rows(lines);
    assert a == b[..|a|];
    ChainedPrefix(h, b, |a|);
  }

  /** With an injective hash the last hash fixes the whole file: two chains of one length ending in one hash are equal. */
  lemma {:induction false} LastHashFixesAll<E(!new)>(h: (nat, string, E) -> string, a: seq<Record<E>>, b: seq<Record<E>>)
    requires Injective(h) && Chained(h, a) && Chained(h, b) && |a| == |b| && LastHash(a) == LastHash(b)
    ensures a == b
  {
    if a != [] {
      var n := |a| - 1;
      assert Follows(h, a[..n], a[n]) && Follows(h, b[..n], b[n]);
      assert h(a[n].number, a[n].prevHash, a[n].event) == h(b[n].number, b[n].prevHash, b[n].event);
      ChainedPrefix(h, a, n);
      ChainedPrefix(h, b, n);
      LastHashFixesAll(h, a[..n], b[..n]);
      assert a == a[..n] + [a[n]] && b == b[..n] + [b[n]];
    }
  }

  // ---------- appending across restarts ----------

  /** The file, and what the open journal remembers of it. */
  datatype State<E> = State(file: Option<seq<Line<E>>>, initialized: bool, number: nat, prevHash: string)

  function LinesOf<E>(file: Option<seq<Line<E>>>): seq<Line<E>> {
    if file.Some? then file.value else []
  }

  /** A journal that has not looked at its file yet takes up where the file ends. A file it cannot read stops it. */
  function Loaded<E>(s: State<E>): (r: Option<State<E>>)
    ensures r.Some? ==> r.value.file == s.file && r.value.initialized
  {
    var lines := LinesOf(s.file);
    if s.initialized then Some(s)
    else if !Readable(lines) then None
    else if Rows(lines) == [] then Some(s.(initialized := true))
    else Some(s.(initialized := true, number := LastNumber(Rows(lines)), prevHash := LastHash(Rows(lines))))
  }

  function NextRecord<E>(h: (nat, string, E) -> string, s: State<E>, event: E): Record<E> {
    Record(s.number + 1, s.prevHash, event, h(s.number + 1, s.prevHash, event))
  }

  /** `written` says whether the append reached the disk. */
  function Appended<E>(h: (nat, string, E) -> string, s: State<E>, event: E, written: bool): State<E> {
    var l := Loaded(s);
    if l.None? then s.(initialized := true)
    else if !written then l.value
    else
      var r := NextRecord(h, l.value, event);
      State(Some(LinesOf(s.file) + [Row(r)]), true, r.number, r.hash)
  }

  datatype Deed<E> = Append(event: E, written: bool) | Restart

  const NOTHING := ""

  function Write<E>(h: (nat, string, E) -> string, s: State<E>, d: Deed<E>): State<E> {
    match d
    case Append(event, written) => Appended(h, s, event, written)
    case Restart => State(s.file, false, 0, NOTHING)
  }

  function WriteAll<E>(h: (nat, string, E) -> string, s: State<E>, deeds: seq<Deed<E>>): State<E> {
    if deeds == [] then s else Write(h, WriteAll(h, s, deeds[..|deeds| - 1]), deeds[|deeds| - 1])
  }

  /** The events whose appends reached the disk. */
  function Kept<E>(deeds: seq<Deed<E>>): seq<E> {
    if deeds == [] then []
    else
      var n := |deeds| - 1;
      Kept(deeds[..n]) + if deeds[n].Append? && deeds[n].written then [deeds[n].event] else []
  }

  function Events<E>(rs: seq<Record<E>>): seq<E> {
    seq(|rs|, i requires 0 <= i < |rs| => rs[i].event)
  }

  /** The file verifies, and an open journal remembers its end. */
  predicate Sound<E>(h: (nat, string, E) -> string, s: State<E>) {
    var rs := Rows(LinesOf(s.file));
    && Verified(h, LinesOf(s.file))
    && (if s.initialized then s.number == |rs| && s.prevHash == LastHash(rs) else s.number == 0 && s.prevHash == NOTHING)
  }

  lemma RowsNext<E>(lines: seq<Line<E>>, line: Line<E>)
    ensures Rows(lines + [line]) == Rows(lines) + if line.Row? then [line.record] else []
  {
    assert (lines + [line])[..|lines|] == lines;
  }

  lemma ChainedNumber<E>(h: (nat, string, E) -> string, rs: seq<Record<E>>)
    requires Chained(h, rs)
    ensures LastNumber(rs) == |rs|
  {
    if rs != [] { assert Follows(h, rs[..|rs| - 1], rs[|rs| - 1]); }
  }

  /** One append to a sound journal: sound again, and the file grew by exactly that record or not at all. */
  lemma AppendKeepsSound<E>(h: (nat, string, E) -> string, s: State<E>, event: E, written: bool)
    requires Sound(h, s)
    ensures var r := Appended(h, s, event, written);
            && Sound(h, r)
            && Events(Rows(LinesOf(r.file))) == Events(Rows(LinesOf(s.file))) + if written then [event] else []
  {
    hide Chained, Rows;
    var lines := LinesOf(s.file);
    var rs := Rows(lines);
    ChainedNumber(h, rs);
    var l := Loaded(s).value;
    assert l.number == |rs| && l.prevHash == LastHash(rs);
    if written {
      var r := NextRecord(h, l, event);
      RowsNext(lines, Row(r));
      ChainedNext(h, rs, r);
      assert Rows(lines + [Row(r)]) == rs + [r];
    }
  }

  /** From nothing, with any number of restarts and failed appends between, the file always verifies, its records are numbered
      from 1, and they hold exactly the events whose appends succeeded, in order. */
  lemma {:induction false} EveryFileVerifies<E>(h: (nat, string, E) -> string, deeds: seq<Deed<E>>)
    ensures var s := WriteAll(h, State(None, false, 0, NOTHING), deeds);
            && Sound(h, s) && Verified(h, LinesOf(s.file))
            && Events(Rows(LinesOf(s.file))) == Kept(deeds)
            && forall i :: 0 <= i < |Rows(LinesOf(s.file))| ==> Rows(LinesOf(s.file))[i].number == i + 1
  {
    var s0: State<E> := State(None, false, 0, NOTHING);
    if deeds != [] {
      var n := |deeds| - 1;
      EveryFileVerifies(h, deeds[..n]);
      var s := WriteAll(h, s0, deeds[..n]);
      if deeds[n].Append? { AppendKeepsSound(h, s, deeds[n].event, deeds[n].written); }
    }
    var rs := Rows(LinesOf(WriteAll(h, s0, deeds).file));
    forall i | 0 <= i < |rs| ensures rs[i].number == i + 1 {
      assert Follows(h, rs[..i], rs[i]);
    }
  }

  // ---------- the ring buffer ----------

  function TailLimit(limit: int): (n: nat)
    ensures 0 < n <= 10000
  {
    if limit <= 0 then 200 else if limit > 10000 then 10000 else limit
  }

  function LastOnes<T>(s: seq<T>, n: nat): seq<T> {
    if |s| <= n then s else s[|s| - n..]
  }

  /** What a tail of a limit holds: the last so many, of as many as there are; 200 for a limit that is none, and never above 10000. */
  lemma TailIsTheLast<T>(s: seq<T>, limit: int)
    ensures var r := LastOnes(s, TailLimit(limit));
            && r == s[|s| - |r|..]
            && (1 <= limit <= 10000 ==> |r| == if limit <= |s| then limit else |s|)
            && (limit < 1 ==> |r| == if 200 <= |s| then 200 else |s|)
            && (limit > 10000 ==> |r| == if 10000 <= |s| then 10000 else |s|)
  {
    if |s| <= TailLimit(limit) { assert s == s[0..]; }
  }

  lemma MultipleBounds(q: int, n: int)
    requires n > 0
    ensures (q >= 1 ==> q * n >= n) && (q <= 0 ==> q * n <= 0)
  {
    if q >= 1 { assert q * n == (q - 1) * n + n && (q - 1) * n >= 0; }
    if q <= 0 { assert (-q) * n >= 0; }
  }

  /** Positions less than n apart fall into different slots of a ring of n. */
  lemma SlotsDiffer(a: nat, b: nat, n: nat)
    requires a < b < a + n
    ensures a % n != b % n
  {
    var q := b / n - a / n;
    MultipleBounds(q, n);
    assert b - a == q * n + (b % n - a % n) by {
      assert b == b / n * n + b % n && a == a / n * n + a % n;
      assert q * n == b / n * n - a / n * n;
    }
  }

  /** Slot i % n holds record i, for the last n of the first `count` records. */
  ghost predicate Ring<E>(ring: seq<Option<Record<E>>>, rs: seq<Record<E>>, count: nat) {
    count <= |rs| && forall i {:trigger rs[i]} :: 0 <= i < count && count - |ring| <= i ==> Slot(ring, i) == Some(rs[i])
  }

  ghost function Slot<E>(ring: seq<Option<Record<E>>>, i: nat): Option<Record<E>> {
    if ring == [] then None else ring[i % |ring|]
  }

  lemma RingNext<E>(ring: seq<Option<Record<E>>>, rs: seq<Record<E>>, r: Record<E>)
    requires ring != [] && Ring(ring, rs, |rs|)
    ensures Ring(ring[|rs| % |ring| := Some(r)], rs + [r], |rs| + 1)
  {
    var next, all := ring[|rs| % |ring| := Some(r)], rs + [r];
    forall i | 0 <= i <= |rs| && |rs| + 1 - |ring| <= i ensures Slot(next, i) == Some(all[i]) {
      if i < |rs| {
        SlotsDiffer(i, |rs|, |ring|);
        assert Slot(ring, i) == Some(rs[i]);
      }
    }
  }

  lemma RingEmpty<E>(ring: seq<Option<Record<E>>>, lines: seq<Line<E>>)
    ensures Rows(lines[..0]) == [] && Ring(ring, Rows(lines[..0]), 0)
  {
  }

  lemma RingRead<E>(ring: seq<Option<Record<E>>>, rs: seq<Record<E>>, i: nat)
    requires Ring(ring, rs, |rs|) && i < |rs| && |rs| - |ring| <= i
    ensures ring != [] && ring[i % |ring|] == Some(rs[i])
  {
    assert Slot(ring, i) == Some(rs[i]);
  }

  datatype Fault = Missing | Unreadable | SequenceBreak | PreviousMismatch | HashMismatch

  // ---------- the journal ----------

  class File<E> {
    var lines: Option<seq<Line<E>>>

    constructor ()
      ensures lines == None
    {
      lines := None;
    }
  }

  /** Walks the chain from the start; it succeeds exactly on a file that verifies, and otherwise stops at the first line that
      breaks it. */
  method Verify<E>(h: (nat, string, E) -> string, file: File<E>) returns (fault: Option<Fault>, ghost at: nat)
    ensures fault.None? <==> file.lines.Some? && Verified(h, file.lines.value)
    ensures fault == Some(Missing) <==> file.lines.None?
    ensures fault.Some? && file.lines.Some? ==>
              at < |file.lines.value| && Verified(h, file.lines.value[..at]) && !Verified(h, file.lines.value[..at + 1])
  {
    hide Verified, Rows;
    at := 0;
    if file.lines.None? { return Some(Missing), at; }
    var lines := file.lines.value;
    var expected, prev := 1, "";
    NothingVerifies(h, lines);
    var i := 0;
    while i < |lines|
      invariant 0 <= i <= |lines|
      invariant Verified(h, lines[..i])
      invariant expected == |Rows(lines[..i])| + 1 && prev == LastHash(Rows(lines[..i]))
    {
      at := i;
      var line := lines[i];
      LineDecides(h, lines, i);
      if line.Garbage? { return Some(Unreadable), at; }
      if line.Row? {
        var r := line.record;
        if r.number != expected { return Some(SequenceBreak), at; }
        if r.prevHash != prev { return Some(PreviousMismatch), at; }
        if r.hash != h(r.number, r.prevHash, r.event) { return Some(HashMismatch), at; }
        prev := r.hash;
        expected := expected + 1;
      }
      i := i + 1;
    }
    assert lines[..|lines|] == lines;
    fault := None;
  }

  lemma NothingVerifies<E>(h: (nat, string, E) -> string, lines: seq<Line<E>>)
    ensures Verified(h, lines[..0]) && Rows(lines[..0]) == []
  {
  }

  /** Given a verified start, the next line decides; a broken start breaks the file. */
  lemma LineDecides<E>(h: (nat, string, E) -> string, lines: seq<Line<E>>, i: nat)
    requires i < |lines| && Verified(h, lines[..i])
    ensures Verified(h, lines[..i + 1])
            <==> !lines[i].Garbage? && (lines[i].Row? ==> Follows(h, Rows(lines[..i]), lines[i].record))
    ensures Rows(lines[..i + 1]) == Rows(lines[..i]) + if lines[i].Row? then [lines[i].record] else []
    ensures !Verified(h, lines[..i + 1]) ==> !Verified(h, lines)
  {
    assert lines[..i + 1] == lines[..i] + [lines[i]];
    RowsNext(lines[..i], lines[i]);
    if lines[i].Row? { ChainedNext(h, Rows(lines[..i]), lines[i].record); }
    if Verified(h, lines) { PrefixVerifies(h, lines, i + 1); }
    assert Readable(lines[..i + 1]) <==> !lines[i].Garbage? by {
      assert lines[..i + 1][i] == lines[i];
      assert forall k :: 0 <= k < i ==> lines[..i + 1][k] == lines[..i][k];
    }
  }

  class Journal<E> {
    const file: File<E>
    const h: (nat, string, E) -> string
    var initialized: bool
    var number: nat
    var prevHash: string

    function Now(): State<E>
      reads this, file
    {
      State(file.lines, initialized, number, prevHash)
    }

    /** A journal just opened, over whatever file there is. */
    constructor (file: File<E>, h: (nat, string, E) -> string)
      ensures this.file == file && this.h == h && Now() == Write(h, old(State(file.lines, false, 0, NOTHING)), Restart)
    {
      this.file, this.h, initialized, number, prevHash := file, h, false, 0, NOTHING;
    }

    method LoadTail() returns (ok: bool)
      requires !initialized
      modifies this
      ensures ok == Loaded(old(Now())).Some?
      ensures ok ==> Now() == Loaded(old(Now())).value
      ensures !ok ==> Now() == old(Now()).(initialized := true)
    {
      initialized := true;
      if file.lines.None? { return true; }
      var lines := file.lines.value;
      var last: Option<Record<E>> := None;
      var i := 0;
      while i < |lines|
        invariant 0 <= i <= |lines| && Readable(lines[..i])
        invariant initialized && number == old(number) && prevHash == old(prevHash)
        invariant last == if Rows(lines[..i]) == [] then None else Some(Rows(lines[..i])[|Rows(lines[..i])| - 1])
      {
        assert lines[..i + 1] == lines[..i] + [lines[i]];
        RowsNext(lines[..i], lines[i]);
        if lines[i].Garbage? { return false; }
        if lines[i].Row? { last := Some(lines[i].record); }
        i := i + 1;
      }
      assert lines[..|lines|] == lines;
      if last.Some? { number, prevHash := last.value.number, last.value.hash; }
      ok := true;
    }

    /** `written` is the fate of the write, sync and close. The reference returned is that of the record appended. */
    method Append(event: E, written: bool) returns (ref: Option<RawRef>)
      modifies this, file
      ensures Now() == Appended(h, old(Now()), event, written)
      ensures ref.Some? <==> written && Loaded(old(Now())).Some?
      ensures ref.Some? ==> ref.value == RawRef(number, prevHash)
    {
      if !initialized {
        var loaded := LoadTail();
        if !loaded { return None; }
      }
      var next := number + 1;
      var hash := h(next, prevHash, event);
      if !written { return None; }
      file.lines := Some((if file.lines.Some? then file.lines.value else []) + [Row(Record(next, prevHash, event, hash))]);
      number, prevHash := next, hash;
      ref := Some(RawRef(next, hash));
    }

    /** The newest records in order, through a ring of `limit` slots. */
    method Tail(limit: int) returns (out: Option<seq<Record<E>>>)
      ensures out.Some? <==> Readable(LinesOf(file.lines))
      ensures out.Some? ==> out.value == LastOnes(Rows(LinesOf(file.lines)), TailLimit(limit))
    {
      hide Rows, Ring;
      var n := TailLimit(limit);
      if file.lines.None? {
        RingEmpty([], LinesOf(file.lines));
        return Some([]);
      }
      var lines := file.lines.value;
      var ring := new Option<Record<E>>[n](i => None);
      var count := 0;
      var i := 0;
      RingEmpty(ring[..], lines);
      while i < |lines|
        invariant 0 <= i <= |lines| && Readable(lines[..i])
        invariant count == |Rows(lines[..i])| && Ring(ring[..], Rows(lines[..i]), count)
      {
        ghost var rs, before := Rows(lines[..i]), ring[..];
        assert lines[..i + 1] == lines[..i] + [lines[i]];
        RowsNext(lines[..i], lines[i]);
        if lines[i].Garbage? { return None; }
        if lines[i].Row? {
          RingNext(before, rs, lines[i].record);
          ring[count % n] := Some(lines[i].record);
          assert |before| == n && ring[..] == before[count % n := Some(lines[i].record)];
          count := count + 1;
        } else {
          assert Rows(lines[..i + 1]) == rs;
        }
        i := i + 1;
      }
      assert lines[..i] == lines;
      ghost var rs, slots := Rows(lines), ring[..];
      assert Ring(slots, rs, |rs|) && |slots| == n;
      var m := if count > n then n else count;
      var last: seq<Record<E>> := [];
      for k := count - m to count
        invariant last == rs[count - m..k] && ring[..] == slots
      {
        RingRead(slots, rs, k);
        last := last + [ring[k % n].value];
      }
      out := Some(last);
    }
  }
}
