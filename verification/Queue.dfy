/**
 The order of the active queue (internal/adapters/sqlitestore/cycle_store.go): rows are sorted by texts, and times are texts too.
 */
module Queues {
  import opened Domain
  import opened Ledger

  // ---------- the order of texts ----------

  /** At i the two part, a before b. */
  predicate PartsAt(a: string, b: string, i: nat) {
    i <= |a| && i < |b| && a[..i] == b[..i] && (i == |a| || a[i] < b[i])
  }

  /** a comes before b, character by character. */
  predicate TextLess(a: string, b: string) {
    exists i :: 0 <= i < |b| && PartsAt(a, b, i)
  }

  lemma TextsParting(a: string, b: string) returns (i: nat)
    requires a != b
    ensures i <= |a| && i <= |b| && a[..i] == b[..i] && (i == |a| || i == |b| || a[i] != b[i]) && !(i == |a| == |b|)
    decreases |a|
  {
    if a == "" || b == "" || a[0] != b[0] {
      i := 0;
    } else {
      assert a == [a[0]] + a[1..] && b == [b[0]] + b[1..];
      i := TextsParting(a[1..], b[1..]);
      i := i + 1;
      assert a[..i] == [a[0]] + a[1..][..i - 1] && b[..i] == [b[0]] + b[1..][..i - 1];
    }
  }

  lemma TextsCompare(a: string, b: string)
    ensures a == b || TextLess(a, b) || TextLess(b, a)
  {
    if a != b {
      var i := TextsParting(a, b);
      assert PartsAt(a, b, i) || PartsAt(b, a, i);
    }
  }

  lemma PartOneWay(a: string, b: string, i: nat, j: nat)
    requires i < |b| && PartsAt(a, b, i) && j < |a|
    ensures !PartsAt(b, a, j)
  {
  }

  lemma TextOneWay(a: string, b: string)
    requires TextLess(a, b)
    ensures !TextLess(b, a) && a != b
  {
    var i :| 0 <= i < |b| && PartsAt(a, b, i);
    forall j | 0 <= j < |a| ensures !PartsAt(b, a, j) { PartOneWay(a, b, i, j); }
  }

  lemma TextTrans(a: string, b: string, c: string)
    requires TextLess(a, b) && TextLess(b, c)
    ensures TextLess(a, c)
  {
    var i :| 0 <= i < |b| && PartsAt(a, b, i);
    var j :| 0 <= j < |c| && PartsAt(b, c, j);
    if i < j {
      assert b[..j][i] == c[..j][i] && b[..i] == b[..j][..i] && c[..i] == c[..j][..i];
      assert PartsAt(a, c, i);
    } else {
      assert a[..j] == a[..i][..j] && b[..j] == b[..i][..j];
      if j < i { assert a[..i][j] == b[..i][j]; }
      assert PartsAt(a, c, j);
    }
  }

  // ---------- the order of rows ----------

  /** Times as the store writes them. */
  type Stamps = Time -> string

  /** The time a row is listed by: when it was called, or else queued. */
  function ListedBy(r: CycleRow): Time {
    if r.cycle.calledAt.Some? then r.cycle.calledAt.value else r.cycle.queuedAt
  }

  /** The columns a row is sorted by: called before queued, then the time it is listed by, then queued, then the id. */
  function SortKey(stamp: Stamps, id: string, r: CycleRow): (k: seq<string>)
    ensures |k| == 4
  {
    [if r.status == Called then "0" else "1",
     stamp(ListedBy(r)), stamp(r.cycle.queuedAt), id]
  }

  predicate KeyLess(a: seq<string>, b: seq<string>)
    requires |a| == |b|
  {
    exists i :: 0 <= i < |a| && a[..i] == b[..i] && TextLess(a[i], b[i])
  }

  lemma {:induction false} KeysCompare(a: seq<string>, b: seq<string>)
    requires |a| == |b|
    ensures a == b || KeyLess(a, b) || KeyLess(b, a)
  {
    if a != [] {
      var n := |a| - 1;
      KeysCompare(a[..n], b[..n]);
      TextsCompare(a[n], b[n]);
      assert a == a[..n] + [a[n]] && b == b[..n] + [b[n]];
      if KeyLess(a[..n], b[..n]) {
        var i :| 0 <= i < n && a[..n][..i] == b[..n][..i] && TextLess(a[..n][i], b[..n][i]);
        assert a[..i] == b[..i] && TextLess(a[i], b[i]);
      }
      if KeyLess(b[..n], a[..n]) {
        var i :| 0 <= i < n && b[..n][..i] == a[..n][..i] && TextLess(b[..n][i], a[..n][i]);
        assert b[..i] == a[..i] && TextLess(b[i], a[i]);
      }
    }
  }

  lemma KeyTrans(a: seq<string>, b: seq<string>, c: seq<string>)
    requires |a| == |b| == |c| && KeyLess(a, b) && KeyLess(b, c)
    ensures KeyLess(a, c)
  {
    hide TextLess;
    var i :| 0 <= i < |a| && a[..i] == b[..i] && TextLess(a[i], b[i]);
    var j :| 0 <= j < |b| && b[..j] == c[..j] && TextLess(b[j], c[j]);
    if i < j {
      assert b[..j][i] == c[..j][i] && b[..i] == b[..j][..i] && c[..i] == c[..j][..i];
      assert a[..i] == c[..i] && TextLess(a[i], c[i]);
    } else if j < i {
      assert a[..i][j] == b[..i][j] && a[..j] == a[..i][..j] && b[..j] == b[..i][..j];
      assert a[..j] == c[..j] && TextLess(a[j], c[j]);
    } else {
      TextTrans(a[i], b[i], c[i]);
      assert a[..i] == c[..i] && TextLess(a[i], c[i]);
    }
  }

  lemma KeyOneWay(a: seq<string>, b: seq<string>)
    requires |a| == |b| && KeyLess(a, b)
    ensures !KeyLess(b, a)
  {
    hide TextLess;
    var i :| 0 <= i < |a| && a[..i] == b[..i] && TextLess(a[i], b[i]);
    TextOneWay(a[i], b[i]);
    if KeyLess(b, a) {
      var j :| 0 <= j < |b| && b[..j] == a[..j] && TextLess(b[j], a[j]);
      TextOneWay(b[j], a[j]);
      assert false;
    }
  }

  /** Row c sorts before row d. */
  predicate RowLess(stamp: Stamps, rows: map<string, CycleRow>, c: string, d: string)
    requires c in rows && d in rows
  {
    KeyLess(SortKey(stamp, c, rows[c]), SortKey(stamp, d, rows[d]))
  }

  lemma RowsCompare(stamp: Stamps, rows: map<string, CycleRow>, c: string, d: string)
    requires c in rows && d in rows && c != d
    ensures RowLess(stamp, rows, c, d) || RowLess(stamp, rows, d, c)
  {
    KeysCompare(SortKey(stamp, c, rows[c]), SortKey(stamp, d, rows[d]));
    assert SortKey(stamp, c, rows[c])[3] != SortKey(stamp, d, rows[d])[3];
  }

  /** c sorts before every other row of the set. */
  predicate Least(stamp: Stamps, rows: map<string, CycleRow>, s: set<string>, c: string)
    requires s <= rows.Keys
  {
    c in s && forall d :: d in s && d != c ==> RowLess(stamp, rows, c, d)
  }

  lemma {:induction false} SomeLeast(stamp: Stamps, rows: map<string, CycleRow>, s: set<string>)
    requires s != {} && s <= rows.Keys
    ensures exists c :: Least(stamp, rows, s, c)
    decreases |s|
  {
    hide RowLess;
    var d :| d in s;
    if s == {d} {
      assert Least(stamp, rows, s, d);
    } else {
      var rest := s - {d};
      assert s == rest + {d};
      SomeLeast(stamp, rows, rest);
      var c :| Least(stamp, rows, rest, c);
      RowsCompare(stamp, rows, c, d);
      if RowLess(stamp, rows, c, d) {
        assert Least(stamp, rows, s, c);
      } else {
        forall e | e in s && e != d ensures RowLess(stamp, rows, d, e) {
          if e != c { RowTrans(stamp, rows, d, c, e); }
        }
        assert Least(stamp, rows, s, d);
      }
    }
  }

  lemma RowTrans(stamp: Stamps, rows: map<string, CycleRow>, c: string, d: string, e: string)
    requires c in rows && d in rows && e in rows && RowLess(stamp, rows, c, d) && RowLess(stamp, rows, d, e)
    ensures RowLess(stamp, rows, c, e)
  {
    KeyTrans(SortKey(stamp, c, rows[c]), SortKey(stamp, d, rows[d]), SortKey(stamp, e, rows[e]));
  }

  /** In a list sorted by key the earlier of two rows is the smaller. */
  lemma PlacesExactly(stamp: Stamps, rows: map<string, CycleRow>, keys: seq<string>, i: nat, j: nat)
    requires i < |keys| && j < |keys| && i != j && forall k :: 0 <= k < |keys| ==> keys[k] in rows
    requires forall m, n :: 0 <= m < n < |keys| ==> RowLess(stamp, rows, keys[m], keys[n])
    ensures i < j <==> RowLess(stamp, rows, keys[i], keys[j])
  {
    if j < i { KeyOneWay(SortKey(stamp, keys[j], rows[keys[j]]), SortKey(stamp, keys[i], rows[keys[i]])); }
  }
}
