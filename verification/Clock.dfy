/**
 Times as the store writes them, and whether their texts sort like the times: Go's RFC3339Nano layout in UTC
 (internal/adapters/sqlitestore/cycle_store.go), on the Gregorian calendar. Times count nanoseconds from the zero time, the first
 instant of year 1.
 */
module Clocks {
  import opened Domain
  import opened Ledger
  import opened Queues

  // ---------- digits ----------

  const SECOND := 1_000_000_000

  function Digit(n: nat): char
    requires n < 10
  {
    '0' + n as char
  }

  /** The last k decimal digits of n. */
  function Digits(n: nat, k: nat): (s: string)
    ensures |s| == k && forall i :: 0 <= i < k ==> '0' <= s[i] <= '9'
  {
    if k == 0 then "" else Digits(n / 10, k - 1) + [Digit(n % 10)]
  }

  /** Trailing zeros are dropped. */
  function Strip(s: string): (r: string)
    ensures r <= s && (forall i :: |r| <= i < |s| ==> s[i] == '0') && (r != "" ==> r[|r| - 1] != '0')
  {
    if s != "" && s[|s| - 1] == '0' then Strip(s[..|s| - 1]) else s
  }

  /** The fraction of the second, without trailing zeros. */
  function Fraction(t: nat): string {
    Strip(Digits(t % SECOND, 9))
  }

  /** At i two digit strings part, x before y. */
  predicate DigitsPart(x: string, y: string, i: nat) {
    i < |x| && i < |y| && x[..i] == y[..i] && x[i] < y[i]
  }

  function Power(k: nat): nat {
    if k == 0 then 1 else 10 * Power(k - 1)
  }

  lemma {:induction false} DigitsOrder(a: nat, b: nat, k: nat) returns (i: nat)
    requires a < b < Power(k)
    ensures DigitsPart(Digits(a, k), Digits(b, k), i)
  {
    var x, y := Digits(a / 10, k - 1), Digits(b / 10, k - 1);
    if a / 10 == b / 10 {
      i := k - 1;
      assert Digits(a, k)[..i] == x && Digits(b, k)[..i] == y;
    } else {
      i := DigitsOrder(a / 10, b / 10, k - 1);
      assert Digits(a, k)[..i] == x[..i] && Digits(b, k)[..i] == y[..i];
    }
  }

  lemma SharedFront(front: string, x: string, y: string)
    ensures TextLess(front + x, front + y) <==> TextLess(x, y)
  {
    if TextLess(x, y) {
      var i :| 0 <= i < |y| && PartsAt(x, y, i);
      assert (front + x)[..|front| + i] == front + x[..i] && (front + y)[..|front| + i] == front + y[..i];
      assert PartsAt(front + x, front + y, |front| + i);
    }
    if TextLess(front + x, front + y) {
      var j :| 0 <= j < |front + y| && PartsAt(front + x, front + y, j);
      assert j >= |front|;
      assert (front + x)[..j] == front + x[..j - |front|] && (front + y)[..j] == front + y[..j - |front|];
      assert x[..j - |front|] == (front + x)[..j][|front|..] && y[..j - |front|] == (front + y)[..j][|front|..];
      assert PartsAt(x, y, j - |front|);
    }
  }

  function Tail(f: string): string {
    (if f == "" then "" else "." + f) + "Z"
  }

  /** x and y, of one length, part at i; f and g are what is left of them without trailing zeros. */
  lemma StrippedExactly(x: string, y: string, f: string, g: string, i: nat)
    requires DigitsPart(x, y, i) && f <= x && g <= y && forall k :: 0 <= k < |y| ==> '0' <= y[k] <= '9'
    requires i < |g|
    ensures TextLess(Tail(f), Tail(g)) <==> !(f < g)
  {
    hide TextLess;
    if |f| > i {
      assert f[..i] == x[..i] && g[..i] == y[..i];
      TailsPart(f, g, i);
    } else {
      assert f == x[..i][..|f|] && g[..|f|] == y[..i][..|f|];
      LaterFirst(f, g);
      TextOneWay(Tail(g), Tail(f));
    }
  }

  /** Of two times in one second the earlier has the smaller text, unless its fraction is the beginning of the later one's. */
  lemma TailsExactly(a: nat, b: nat)
    requires a < b < SECOND
    ensures TextLess(Tail(Fraction(a)), Tail(Fraction(b))) <==> !(Fraction(a) < Fraction(b))
  {
    hide Digits, Strip, TextLess, Tail;
    Powers();
    var x, y := Digits(a, 9), Digits(b, 9);
    var i := DigitsOrder(a, b, 9);
    assert i < |Strip(y)| by { assert y[i] > x[i] >= '0'; }
    StrippedExactly(x, y, Strip(x), Strip(y), i);
  }

  lemma TailsPart(f: string, g: string, i: nat)
    requires DigitsPart(f, g, i)
    ensures TextLess(Tail(f), Tail(g)) && !(f < g)
  {
    assert Tail(f)[..i + 1] == "." + f[..i] && Tail(g)[..i + 1] == "." + g[..i];
    assert PartsAt(Tail(f), Tail(g), i + 1);
  }

  lemma LaterFirst(f: string, g: string)
    requires f < g && forall i :: 0 <= i < |g| ==> '0' <= g[i] <= '9'
    ensures TextLess(Tail(g), Tail(f))
  {
    if f == "" {
      assert PartsAt(Tail(g), Tail(f), 0);
    } else {
      var n := |f| + 1;
      assert Tail(f)[..n] == "." + f && Tail(g)[..n] == "." + g[..|f|] && g[..|f|] == f;
      assert Tail(f)[n] == 'Z' && Tail(g)[n] == g[|f|];
      assert PartsAt(Tail(g), Tail(f), n);
    }
  }

  // ---------- the calendar ----------

  predicate Leap(year: nat) {
    year % 4 == 0 && (year % 100 != 0 || year % 400 == 0)
  }

  /** Months are counted from January of year 1, which is month 0. */
  function YearOf(month: nat): nat {
    month / 12 + 1
  }

  function Length(month: nat): (n: nat)
    ensures 28 <= n <= 31
  {
    var m := month % 12 + 1;
    if m == 2 then (if Leap(YearOf(month)) then 29 else 28)
    else if m == 4 || m == 6 || m == 9 || m == 11 then 30
    else 31
  }

  datatype Date = Date(month: nat, day: nat)

  /** The date `days` days after the first of a month; days of a month count from 0. */
  function DateFrom(month: nat, days: nat): (d: Date)
    ensures d.month >= month && d.day < Length(d.month)
    decreases days
  {
    if days < Length(month) then Date(month, days) else DateFrom(month + 1, days - Length(month))
  }

  predicate Sooner(a: Date, b: Date) {
    a.month < b.month || (a.month == b.month && a.day < b.day)
  }

  lemma {:induction false} DatesInOrder(month: nat, a: nat, b: nat)
    requires a < b
    ensures Sooner(DateFrom(month, a), DateFrom(month, b))
    decreases a
  {
    if a >= Length(month) { DatesInOrder(month + 1, a - Length(month), b - Length(month)); }
  }

  /** The days before a month. */
  function DaysBefore(month: nat): nat {
    if month == 0 then 0 else DaysBefore(month - 1) + Length(month - 1)
  }

  lemma {:induction false} DateIsRight(month: nat, days: nat)
    ensures var d := DateFrom(month, days); DaysBefore(month) + days == DaysBefore(d.month) + d.day
    decreases days
  {
    if days >= Length(month) { DateIsRight(month + 1, days - Length(month)); }
  }

  lemma {:induction false} DaysGrow(a: nat, b: nat)
    requires a <= b
    ensures DaysBefore(a) <= DaysBefore(b)
    decreases b
  {
    if a < b { DaysGrow(a, b - 1); }
  }

  lemma NextMonth(n: nat, m: nat)
    requires m < 12
    ensures (12 * n + m) % 12 == m && YearOf(12 * n + m) == n + 1
    ensures DaysBefore(12 * n + m + 1) == DaysBefore(12 * n + m) + Length(12 * n + m)
  {
  }

  lemma YearOfDays(n: nat)
    ensures DaysBefore(12 * (n + 1)) == DaysBefore(12 * n) + if Leap(n + 1) then 366 else 365
  {
    hide DaysBefore, Leap, YearOf;
    NextMonth(n, 0); NextMonth(n, 1); NextMonth(n, 2); NextMonth(n, 3); NextMonth(n, 4); NextMonth(n, 5);
    NextMonth(n, 6); NextMonth(n, 7); NextMonth(n, 8); NextMonth(n, 9); NextMonth(n, 10); NextMonth(n, 11);
    assert 12 * (n + 1) == 12 * n + 12;
  }

  lemma Multiples(q: nat)
    ensures q % 100 == 0 ==> q % 4 == 0
    ensures q % 400 == 0 ==> q % 100 == 0
  {
    assert q == 100 * (q / 100) + q % 100;
    assert q == 400 * (q / 400) + q % 400;
  }

  lemma NextQuotient(n: nat, k: nat)
    requires k == 4 || k == 100 || k == 400
    ensures (n + 1) / k == n / k + if (n + 1) % k == 0 then 1 else 0
  {
    if k == 4 {
      assert n == 4 * (n / 4) + n % 4;
    } else if k == 100 {
      assert n == 100 * (n / 100) + n % 100;
    } else {
      assert n == 400 * (n / 400) + n % 400;
    }
  }

  lemma LeapYears(n: nat)
    ensures (n + 1) / 4 - (n + 1) / 100 + (n + 1) / 400 == n / 4 - n / 100 + n / 400 + if Leap(n + 1) then 1 else 0
  {
    NextQuotient(n, 4);
    NextQuotient(n, 100);
    NextQuotient(n, 400);
    Multiples(n + 1);
  }

  /** The Gregorian rule: the days before the year after n years. */
  lemma {:induction false} DaysOfYears(n: nat)
    ensures DaysBefore(12 * n) == 365 * n + n / 4 - n / 100 + n / 400
  {
    if n > 0 {
      DaysOfYears(n - 1);
      YearOfDays(n - 1);
      LeapYears(n - 1);
    }
  }

  lemma NoDays()
    ensures DaysBefore(0) == 0
  {
  }

  lemma DayInMonth(d: Date)
    requires d.day < Length(d.month)
    ensures DaysBefore(d.month) + d.day < DaysBefore(d.month + 1)
  {
  }

  const DAY := 86_400

  /** The second at which year 10000 begins. */
  const YEAR_TEN_THOUSAND := 315_537_897_600

  /** Exactly the seconds before it have a year of four digits. */
  lemma FourDigitsExactly(s: nat)
    ensures YearOf(DateFrom(0, s / DAY).month) <= 9999 <==> s < YEAR_TEN_THOUSAND
  {
    hide Length, DateFrom, DaysBefore;
    var d := DateFrom(0, s / DAY);
    DateIsRight(0, s / DAY);
    NoDays();
    DayInMonth(d);
    DaysOfYears(9999);
    if d.month < 12 * 9999 { DaysGrow(d.month + 1, 12 * 9999); } else { DaysGrow(12 * 9999, d.month); }
  }

  // ---------- the text of a time ----------

  /** A number of k digits, a separator, and the rest. */
  function Field(n: nat, k: nat, separator: char, rest: string): string {
    Digits(n, k) + ([separator] + rest)
  }

  /** hh:mm:ss */
  function TimeText(s: nat): string {
    Field(s / 3600, 2, ':', Field(s / 60 % 60, 2, ':', Digits(s % 60, 2)))
  }

  /** yyyy-mm-ddThh:mm:ss */
  function Clock(s: nat): string {
    var d := DateFrom(0, s / DAY);
    Field(YearOf(d.month), 4, '-', Field(d.month % 12 + 1, 2, '-', Field(d.day + 1, 2, 'T', TimeText(s % DAY))))
  }

  /** A time as the store writes it. */
  function Stamp(t: nat): string {
    Clock(t / SECOND) + Tail(Fraction(t))
  }

  lemma Powers()
    ensures Power(2) == 100 && Power(4) == 10_000 && Power(9) == SECOND
  {
  }

  lemma SmallerDigits(a: nat, b: nat, k: nat)
    requires a < b < Power(k)
    ensures TextLess(Digits(a, k), Digits(b, k))
  {
    var i := DigitsOrder(a, b, k);
    assert PartsAt(Digits(a, k), Digits(b, k), i);
  }

  lemma FieldsInOrder(a: nat, b: nat, k: nat, separator: char, x: string, y: string)
    requires b < Power(k) && (a < b || (a == b && TextLess(x, y)))
    ensures TextLess(Field(a, k, separator, x), Field(b, k, separator, y))
  {
    hide Digits, TextLess, Power;
    if a < b {
      SmallerDigits(a, b, k);
      FrontDecides(Digits(a, k), Digits(b, k), [separator] + x, [separator] + y);
    } else {
      SharedFront([separator], x, y);
      SharedFront(Digits(a, k), [separator] + x, [separator] + y);
    }
  }

  lemma HandsInOrder(a: nat, b: nat)
    requires a < b < DAY
    ensures a / 3600 <= b / 3600 < 24 && (a / 3600 == b / 3600 ==> a / 60 % 60 <= b / 60 % 60)
    ensures a / 3600 == b / 3600 && a / 60 % 60 == b / 60 % 60 ==> a % 60 < b % 60
  {
    assert a / 3600 == a / 60 / 60 && b / 3600 == b / 60 / 60;
    assert a / 60 == 60 * (a / 3600) + a / 60 % 60 && b / 60 == 60 * (b / 3600) + b / 60 % 60;
    assert a == 60 * (a / 60) + a % 60 && b == 60 * (b / 60) + b % 60;
  }

  lemma TimesInOrder(a: nat, b: nat)
    requires a < b < DAY
    ensures TextLess(TimeText(a), TimeText(b))
  {
    hide Digits, TextLess, Field, Power;
    Powers();
    HandsInOrder(a, b);
    var x, y := Field(a / 60 % 60, 2, ':', Digits(a % 60, 2)), Field(b / 60 % 60, 2, ':', Digits(b % 60, 2));
    if a / 3600 == b / 3600 {
      if a / 60 % 60 == b / 60 % 60 { SmallerDigits(a % 60, b % 60, 2); }
      FieldsInOrder(a / 60 % 60, b / 60 % 60, 2, ':', Digits(a % 60, 2), Digits(b % 60, 2));
    }
    FieldsInOrder(a / 3600, b / 3600, 2, ':', x, y);
  }

  /** Up to year 9999 the part down to the second sorts by time. */
  lemma ClockInOrder(a: nat, b: nat)
    requires a < b < YEAR_TEN_THOUSAND
    ensures TextLess(Clock(a), Clock(b))
  {
    hide Digits, TextLess, Field, Power, TimeText, DateFrom, Length;
    Powers();
    FourDigitsExactly(b);
    var d, e := DateFrom(0, a / DAY), DateFrom(0, b / DAY);
    var x, y := TimeText(a % DAY), TimeText(b % DAY);
    if a / DAY == b / DAY { TimesInOrder(a % DAY, b % DAY); } else { DatesInOrder(0, a / DAY, b / DAY); }
    DatesAsTexts(d, e, x, y);
  }

  lemma DatesAsTexts(d: Date, e: Date, x: string, y: string)
    requires Sooner(d, e) || (d == e && TextLess(x, y))
    requires YearOf(e.month) <= 9999 && e.day < 31
    ensures TextLess(Field(YearOf(d.month), 4, '-', Field(d.month % 12 + 1, 2, '-', Field(d.day + 1, 2, 'T', x))),
                     Field(YearOf(e.month), 4, '-', Field(e.month % 12 + 1, 2, '-', Field(e.day + 1, 2, 'T', y))))
  {
    hide Digits, TextLess, Field, Power;
    Powers();
    var p, q := Field(d.day + 1, 2, 'T', x), Field(e.day + 1, 2, 'T', y);
    if d.month == e.month { FieldsInOrder(d.day + 1, e.day + 1, 2, 'T', x, y); }
    var m, n := Field(d.month % 12 + 1, 2, '-', p), Field(e.month % 12 + 1, 2, '-', q);
    if YearOf(d.month) == YearOf(e.month) { FieldsInOrder(d.month % 12 + 1, e.month % 12 + 1, 2, '-', p, q); }
    FieldsInOrder(YearOf(d.month), YearOf(e.month), 4, '-', m, n);
  }

  lemma ClockWidth(s: nat)
    ensures |Clock(s)| == 19
  {
  }

  // ---------- whether the order of the texts is the order of the times ----------

  /** The later of two times sorts first: both lie in one second, and the fraction of the earlier is the beginning of the other's. */
  predicate Overtakes(a: nat, b: nat) {
    a / SECOND == b / SECOND && Fraction(a) < Fraction(b)
  }

  lemma OvertakingSortsFirst(a: nat, b: nat)
    requires Overtakes(a, b)
    ensures TextLess(Stamp(b), Stamp(a))
  {
    hide TextLess, Clock, Tail;
    LaterFirst(Fraction(a), Fraction(b));
    SharedFront(Clock(a / SECOND), Tail(Fraction(b)), Tail(Fraction(a)));
  }

  /** Times up to year 9999 sort as texts in the right order exactly when the later does not overtake, in the wrong order exactly
      when it does. */
  lemma StampsExactly(a: nat, b: nat)
    requires a < b && b / SECOND < YEAR_TEN_THOUSAND
    ensures TextLess(Stamp(a), Stamp(b)) <==> !Overtakes(a, b)
    ensures TextLess(Stamp(b), Stamp(a)) <==> Overtakes(a, b)
  {
    hide TextLess, Clock, Tail, Fraction;
    if a / SECOND == b / SECOND {
      SameSecond(a, b);
      TailsExactly(a % SECOND, b % SECOND);
      SharedFront(Clock(a / SECOND), Tail(Fraction(a)), Tail(Fraction(b)));
    } else {
      assert a / SECOND < b / SECOND;
      ClockInOrder(a / SECOND, b / SECOND);
      ClockWidth(a / SECOND);
      ClockWidth(b / SECOND);
      FrontDecides(Clock(a / SECOND), Clock(b / SECOND), Tail(Fraction(a)), Tail(Fraction(b)));
    }
    if Overtakes(a, b) { OvertakingSortsFirst(a, b); }
    if TextLess(Stamp(a), Stamp(b)) { TextOneWay(Stamp(a), Stamp(b)); }
  }

  lemma SameSecond(a: nat, b: nat)
    requires a < b && a / SECOND == b / SECOND
    ensures a % SECOND < b % SECOND && Fraction(a) == Fraction(a % SECOND) && Fraction(b) == Fraction(b % SECOND)
  {
    hide Digits, Strip;
    assert a == SECOND * (a / SECOND) + a % SECOND && b == SECOND * (b / SECOND) + b % SECOND;
  }

  lemma FrontDecides(p: string, q: string, x: string, y: string)
    requires |p| == |q| && TextLess(p, q)
    ensures TextLess(p + x, q + y)
  {
    var i :| 0 <= i < |q| && PartsAt(p, q, i);
    assert (p + x)[..i] == p[..i] && (q + y)[..i] == q[..i];
    assert PartsAt(p + x, q + y, i);
  }

  // ---------- what this does to the queue ----------

  /** Every time as the store writes it; times before the zero time are left open. */
  const WRITTEN: Stamps := (t: Time) => if t < 0 then "" else Stamp(t)

  /** Both rows are called, or neither is, and neither time is before the zero time. */
  predicate Alike(c: CycleRow, d: CycleRow) {
    (c.status == Called <==> d.status == Called) && ListedBy(c) >= 0 && ListedBy(d) >= 0
  }

  lemma TextsDecideRows(rows: map<string, CycleRow>, c: string, d: string)
    requires c in rows && d in rows && Alike(rows[c], rows[d])
    requires TextLess(Stamp(ListedBy(rows[c])), Stamp(ListedBy(rows[d])))
    ensures RowLess(WRITTEN, rows, c, d) && !RowLess(WRITTEN, rows, d, c)
  {
    hide TextLess, Stamp;
    var k, l := SortKey(WRITTEN, c, rows[c]), SortKey(WRITTEN, d, rows[d]);
    assert k[..1] == l[..1] && TextLess(k[1], l[1]);
    KeyOneWay(k, l);
  }

  /** First come, first served: of two trucks both called, or both not, the earlier sorts first exactly when the later does not
      overtake it. */
  lemma FirstComeFirstServedExactly(rows: map<string, CycleRow>, c: string, d: string)
    requires c in rows && d in rows && Alike(rows[c], rows[d])
    requires ListedBy(rows[c]) < ListedBy(rows[d]) && ListedBy(rows[d]) / SECOND < YEAR_TEN_THOUSAND
    ensures RowLess(WRITTEN, rows, c, d) <==> !Overtakes(ListedBy(rows[c]), ListedBy(rows[d]))
  {
    hide TextLess, Stamp, Overtakes, RowLess;
    StampsExactly(ListedBy(rows[c]), ListedBy(rows[d]));
    if Overtakes(ListedBy(rows[c]), ListedBy(rows[d])) { TextsDecideRows(rows, d, c); } else { TextsDecideRows(rows, c, d); }
  }

  /** The same in a listing, by place. */
  lemma PlaceInQueueExactly(rows: map<string, CycleRow>, keys: seq<string>, i: nat, j: nat)
    requires i < |keys| && j < |keys| && forall k :: 0 <= k < |keys| ==> keys[k] in rows
    requires forall m, n :: 0 <= m < n < |keys| ==> RowLess(WRITTEN, rows, keys[m], keys[n])
    requires Alike(rows[keys[i]], rows[keys[j]]) && ListedBy(rows[keys[i]]) < ListedBy(rows[keys[j]])
    requires ListedBy(rows[keys[j]]) / SECOND < YEAR_TEN_THOUSAND
    ensures i < j <==> !Overtakes(ListedBy(rows[keys[i]]), ListedBy(rows[keys[j]]))
  {
    hide RowLess, Overtakes;
    FirstComeFirstServedExactly(rows, keys[i], keys[j]);
    PlacesExactly(WRITTEN, rows, keys, i, j);
  }

  lemma ZeroBeforeOne()
    ensures TextLess("0", "1")
  {
    assert PartsAt("0", "1", 0);
  }

  /** Whoever is called sorts before everybody who is not, whatever the times. */
  lemma CalledComeFirst(rows: map<string, CycleRow>, c: string, d: string)
    requires c in rows && d in rows && rows[c].status == Called && rows[d].status != Called
    ensures RowLess(WRITTEN, rows, c, d)
  {
    hide TextLess, Stamp;
    var k, l := SortKey(WRITTEN, c, rows[c]), SortKey(WRITTEN, d, rows[d]);
    ZeroBeforeOne();
    assert k[..0] == l[..0] && k[0] == "0" && l[0] == "1";
  }

  /** Two rows alike with the same time they are listed by: the one queued earlier, and at last the one with the smaller id. */
  lemma TiesExactly(rows: map<string, CycleRow>, c: string, d: string)
    requires c in rows && d in rows && c != d && Alike(rows[c], rows[d]) && ListedBy(rows[c]) == ListedBy(rows[d])
    requires 0 <= rows[c].cycle.queuedAt <= rows[d].cycle.queuedAt && rows[d].cycle.queuedAt / SECOND < YEAR_TEN_THOUSAND
    ensures var a, b := rows[c].cycle.queuedAt, rows[d].cycle.queuedAt;
            RowLess(WRITTEN, rows, c, d) <==> if a == b then TextLess(c, d) else !Overtakes(a, b)
  {
    hide TextLess, Stamp, Overtakes;
    var a, b := rows[c].cycle.queuedAt, rows[d].cycle.queuedAt;
    var k, l := SortKey(WRITTEN, c, rows[c]), SortKey(WRITTEN, d, rows[d]);
    assert k[..2] == l[..2];
    if a == b {
      assert k[..3] == l[..3] && k[3] == c && l[3] == d;
      TextsCompare(c, d);
      if TextLess(d, c) { assert l[..3] == k[..3] && TextLess(l[3], k[3]); KeyOneWay(l, k); TextOneWay(d, c); }
    } else {
      StampsExactly(a, b);
      if Overtakes(a, b) { assert l[..2] == k[..2] && TextLess(l[2], k[2]); KeyOneWay(l, k); }
    }
  }

  /** The whole order of the queue, by place: the called come first; among the called, and among the rest, whoever was called or else
      queued earlier, unless the later overtakes; among those of one time whoever was queued earlier, unless the later overtakes;
      and at last the smaller id. */
  lemma QueueOrder(rows: map<string, CycleRow>, keys: seq<string>, i: nat, j: nat)
    requires i < |keys| && j < |keys| && keys[i] != keys[j] && forall k :: 0 <= k < |keys| ==> keys[k] in rows
    requires forall m, n :: 0 <= m < n < |keys| ==> RowLess(WRITTEN, rows, keys[m], keys[n])
    ensures var c, d := rows[keys[i]], rows[keys[j]];
            var x, y := if c.cycle.calledAt.Some? then c.cycle.calledAt.value else c.cycle.queuedAt,
                        if d.cycle.calledAt.Some? then d.cycle.calledAt.value else d.cycle.queuedAt;
            && (c.status == Called && d.status != Called ==> i < j)
            && ((c.status == Called <==> d.status == Called) ==>
                 && (0 <= x < y && y / SECOND < YEAR_TEN_THOUSAND ==> (i < j <==> !Overtakes(x, y)))
                 && (0 <= x == y && 0 <= c.cycle.queuedAt < d.cycle.queuedAt && d.cycle.queuedAt / SECOND < YEAR_TEN_THOUSAND ==>
                      (i < j <==> !Overtakes(c.cycle.queuedAt, d.cycle.queuedAt)))
                 && (0 <= x == y && 0 <= c.cycle.queuedAt == d.cycle.queuedAt && d.cycle.queuedAt / SECOND < YEAR_TEN_THOUSAND ==>
                      (i < j <==> TextLess(keys[i], keys[j]))))
  {
    hide RowLess, Overtakes, TextLess, Stamp;
    var c, d := rows[keys[i]], rows[keys[j]];
    PlacesExactly(WRITTEN, rows, keys, i, j);
    if c.status == Called && d.status != Called {
      CalledComeFirst(rows, keys[i], keys[j]);
    } else if (c.status == Called <==> d.status == Called) && 0 <= ListedBy(c) < ListedBy(d) && ListedBy(d) / SECOND < YEAR_TEN_THOUSAND {
      FirstComeFirstServedExactly(rows, keys[i], keys[j]);
    } else if (c.status == Called <==> d.status == Called) && 0 <= ListedBy(c) == ListedBy(d)
              && 0 <= c.cycle.queuedAt <= d.cycle.queuedAt && d.cycle.queuedAt / SECOND < YEAR_TEN_THOUSAND {
      TiesExactly(rows, keys[i], keys[j]);
    }
  }

  /** It happens: whoever is listed by a whole second comes after everybody alike of the same second. */
  lemma WholeSecondIsOvertaken(rows: map<string, CycleRow>, c: string, d: string)
    requires c in rows && d in rows && Alike(rows[c], rows[d])
    requires ListedBy(rows[c]) % SECOND == 0 && ListedBy(rows[c]) < ListedBy(rows[d]) < ListedBy(rows[c]) + SECOND
    ensures RowLess(WRITTEN, rows, d, c) && !RowLess(WRITTEN, rows, c, d)
  {
    hide TextLess, Stamp, Overtakes, RowLess;
    WholeSecond(ListedBy(rows[c]), ListedBy(rows[d]));
    OvertakingSortsFirst(ListedBy(rows[c]), ListedBy(rows[d]));
    TextsDecideRows(rows, d, c);
  }

  lemma WholeSecond(a: nat, b: nat)
    requires a % SECOND == 0 && a < b < a + SECOND
    ensures Overtakes(a, b)
  {
    hide Digits, Strip;
    Powers();
    NoFraction(9);
    assert b == SECOND * (a / SECOND) + (b - a) && a == SECOND * (a / SECOND);
    var i := DigitsOrder(0, b - a, 9);
    assert Digits(b - a, 9)[i] > '0';
  }

  lemma {:induction false} NoFraction(k: nat)
    ensures Strip(Digits(0, k)) == ""
  {
    if k > 0 {
      NoFraction(k - 1);
      assert Digits(0, k)[..k - 1] == Digits(0, k - 1);
    }
  }
}
