/**
 * The UTC timestamps kept as text: `ts()` of jobqueue.py, always with six
 * fraction digits, and `isoformat()`, which leaves a zero fraction out
 * (section 5.6 of RFC 3339 gives the grammar). SQL and Python compare them
 * as text, code point by code point.
 */
module Timestamps {
  import opened Sequences

  datatype Moment = Moment(year: nat, month: nat, day: nat, hour: nat, minute: nat, second: nat, micro: nat)

  predicate Leap(y: nat) {
    y % 4 == 0 && (y % 100 != 0 || y % 400 == 0)
  }

  function DaysInMonth(y: nat, m: nat): nat {
    if m == 2 then (if Leap(y) then 29 else 28)
    else if m == 4 || m == 6 || m == 9 || m == 11 then 30
    else 31
  }

  predicate Valid(t: Moment) {
    && 1000 <= t.year <= 9999 && 1 <= t.month <= 12
    && 1 <= t.day <= DaysInMonth(t.year, t.month)
    && t.hour < 24 && t.minute < 60 && t.second < 60 && t.micro < 1_000_000
  }

  // ---------- the instant a moment denotes -------------------------------------

  function DaysInYear(y: nat): nat {
    if Leap(y) then 366 else 365
  }

  function DaysBeforeYear(y: nat): nat {
    if y == 0 then 0 else DaysBeforeYear(y - 1) + DaysInYear(y - 1)
  }

  function DaysBeforeMonth(y: nat, m: nat): nat {
    if m <= 1 then 0 else DaysBeforeMonth(y, m - 1) + DaysInMonth(y, m - 1)
  }

  function Days(t: Moment): nat {
    DaysBeforeYear(t.year) + DaysBeforeMonth(t.year, t.month) + t.day
  }

  /** Microseconds on the proleptic Gregorian time line. */
  function Instant(t: Moment): nat {
    (((Days(t) * 24 + t.hour) * 60 + t.minute) * 60 + t.second) * 1_000_000 + t.micro
  }

  lemma {:induction false} YearsGrow(a: nat, b: nat)
    requires a < b
    ensures DaysBeforeYear(a) + DaysInYear(a) <= DaysBeforeYear(b)
  {
    if a + 1 < b { YearsGrow(a, b - 1); }
  }

  lemma {:induction false} MonthsGrow(y: nat, a: nat, b: nat)
    requires 1 <= a < b
    ensures DaysBeforeMonth(y, a) + DaysInMonth(y, a) <= DaysBeforeMonth(y, b)
  {
    if a + 1 < b { MonthsGrow(y, a, b - 1); }
  }

  lemma MonthsFillTheYear(y: nat)
    ensures DaysBeforeMonth(y, 12) + 31 == DaysInYear(y)
  {
    var february := DaysInMonth(y, 2);
    assert DaysBeforeMonth(y, 2) == 31;
    assert DaysBeforeMonth(y, 4) == 62 + february;
    assert DaysBeforeMonth(y, 6) == 123 + february;
    assert DaysBeforeMonth(y, 8) == 184 + february;
    assert DaysBeforeMonth(y, 10) == 245 + february;
  }

  lemma DayFitsTheYear(t: Moment)
    requires Valid(t)
    ensures 1 <= Days(t) - DaysBeforeYear(t.year) <= DaysInYear(t.year)
  {
    MonthsFillTheYear(t.year);
    if t.month < 12 { MonthsGrow(t.year, t.month, 12); }
  }

  lemma CalendarOrder(a: Moment, b: Moment)
    requires Valid(a) && Valid(b)
    ensures a.year < b.year ==> Days(a) < Days(b)
    ensures a.year == b.year && a.month < b.month ==> Days(a) < Days(b)
  {
    if a.year < b.year {
      YearsGrow(a.year, b.year);
      DayFitsTheYear(a);
      DayFitsTheYear(b);
    } else if a.year == b.year && a.month < b.month {
      MonthsGrow(a.year, a.month, b.month);
    }
  }

  predicate SameSecond(a: Moment, b: Moment) {
    a.(micro := b.micro) == b
  }

  /** Field by field, most significant first; fractions aside. */
  predicate Earlier(a: Moment, b: Moment) {
    if a.year != b.year then a.year < b.year
    else if a.month != b.month then a.month < b.month
    else if a.day != b.day then a.day < b.day
    else if a.hour != b.hour then a.hour < b.hour
    else if a.minute != b.minute then a.minute < b.minute
    else a.second < b.second
  }

  function ClockMicros(t: Moment): nat {
    ((t.hour * 60 + t.minute) * 60 + t.second) * 1_000_000 + t.micro
  }

  lemma InstantSplits(t: Moment)
    requires Valid(t)
    ensures Instant(t) == Days(t) * 86_400_000_000 + ClockMicros(t)
    ensures ClockMicros(t) < 86_400_000_000
  {
  }

  lemma SameYearAndMonth(a: Moment, b: Moment)
    requires a.year == b.year && a.month == b.month
    ensures Days(a) - Days(b) == a.day - b.day
  {
  }

  /** Calendar fields order moments as the time line does. */
  lemma FieldsOrderInstants(a: Moment, b: Moment)
    requires Valid(a) && Valid(b)
    ensures Earlier(a, b) ==> Instant(a) < Instant(b)
    ensures SameSecond(a, b) ==> Instant(a) - Instant(b) == a.micro - b.micro
    ensures Earlier(a, b) || Earlier(b, a) || SameSecond(a, b)
  {
    CalendarOrder(a, b);
    InstantSplits(a);
    InstantSplits(b);
    if a.year == b.year && a.month == b.month { SameYearAndMonth(a, b); }
  }

  // ---------- the text ------------------------------------------------------------

  predicate CharLeq(a: char, b: char) {
    a <= b
  }

  predicate TextLess(a: string, b: string) {
    a != b && Lex(CharLeq, a, b)
  }

  function Pow10(n: nat): (p: nat)
    ensures p >= 1
  {
    if n == 0 then 1 else 10 * Pow10(n - 1)
  }

  /** Zero-padded decimal. */
  function Digits(n: nat, width: nat): (s: string)
    ensures |s| == width
  {
    if width == 0 then ""
    else Digits(n / 10, width - 1) + ["0123456789"[n % 10]]
  }

  /** `YYYY-MM-DDTHH:MM:SS`, then `tail`. */
  function Text(t: Moment, tail: string): string {
    Digits(t.year, 4) + (['-'] + (Digits(t.month, 2) + (['-'] + (Digits(t.day, 2) + (['T']
    + (Digits(t.hour, 2) + ([':'] + (Digits(t.minute, 2) + ([':'] + (Digits(t.second, 2) + tail))))))))))
  }

  const UTC := "+00:00"

  function Ts(t: Moment): string {
    Text(t, "." + (Digits(t.micro, 6) + UTC))
  }

  function IsoTail(micro: nat): string {
    if micro == 0 then UTC else "." + (Digits(micro, 6) + UTC)
  }

  function Iso(t: Moment): string {
    Text(t, IsoTail(t.micro))
  }

  lemma {:induction false} LexDecidedByPrefix(p: string, q: string, a: string, b: string)
    requires |p| == |q| && p != q
    ensures Lex(CharLeq, p + a, q + b) == Lex(CharLeq, p, q)
  {
    if p[0] == q[0] {
      assert p == [p[0]] + p[1..] && q == [q[0]] + q[1..];
      assert (p + a)[1..] == p[1..] + a && (q + b)[1..] == q[1..] + b;
      LexDecidedByPrefix(p[1..], q[1..], a, b);
    }
  }

  /** Equally wide decimals are ordered as text the way they are as numbers. */
  lemma {:induction false} DigitsOrder(m: nat, n: nat, width: nat)
    requires m < Pow10(width) && n < Pow10(width)
    ensures Digits(m, width) == Digits(n, width) <==> m == n
    ensures Lex(CharLeq, Digits(m, width), Digits(n, width)) <==> m <= n
  {
    if width > 0 {
      DigitsOrder(m / 10, n / 10, width - 1);
      var p, q := Digits(m / 10, width - 1), Digits(n / 10, width - 1);
      var c, d := "0123456789"[m % 10], "0123456789"[n % 10];
      assert (p + [c])[..width - 1] == p && (q + [d])[..width - 1] == q;
      assert (p + [c])[width - 1] == c && (q + [d])[width - 1] == d;
      if p == q {
        LexCommonPrefix(CharLeq, p, [c], [d]);
        assert Lex(CharLeq, [c], [d]) <==> c <= d;
      } else {
        LexDecidedByPrefix(p, q, [c], [d]);
      }
    }
  }

  /** One field against another, whatever text follows. */
  lemma FieldOrder(m: nat, n: nat, width: nat, a: string, b: string)
    requires m < Pow10(width) && n < Pow10(width)
    ensures m != n ==> (Lex(CharLeq, Digits(m, width) + a, Digits(n, width) + b) <==> m < n)
    ensures m == n ==> (Lex(CharLeq, Digits(m, width) + a, Digits(n, width) + b) <==> Lex(CharLeq, a, b))
  {
    DigitsOrder(m, n, width);
    if m == n {
      LexCommonPrefix(CharLeq, Digits(m, width), a, b);
    } else {
      LexDecidedByPrefix(Digits(m, width), Digits(n, width), a, b);
    }
  }

  lemma SeparatedFieldOrder(m: nat, n: nat, width: nat, sep: char, a: string, b: string)
    requires m < Pow10(width) && n < Pow10(width)
    ensures Lex(CharLeq, Digits(m, width) + ([sep] + a), Digits(n, width) + ([sep] + b))
         == if m != n then m < n else Lex(CharLeq, a, b)
  {
    FieldOrder(m, n, width, [sep] + a, [sep] + b);
    LexCommonPrefix(CharLeq, [sep], a, b);
  }

  /** Text order is field order, and inside one second the order of the tails. */
  lemma TextOrder(s: Moment, t: Moment, a: string, b: string)
    requires Valid(s) && Valid(t)
    ensures Lex(CharLeq, Text(s, a), Text(t, b))
         == if SameSecond(s, t) then Lex(CharLeq, a, b) else Earlier(s, t)
  {
    assert Pow10(2) == 100 && Pow10(4) == 100 * Pow10(2);
    FieldOrder(s.second, t.second, 2, a, b);
    var a5, b5 := Digits(s.second, 2) + a, Digits(t.second, 2) + b;
    SeparatedFieldOrder(s.minute, t.minute, 2, ':', a5, b5);
    var a4, b4 := Digits(s.minute, 2) + ([':'] + a5), Digits(t.minute, 2) + ([':'] + b5);
    SeparatedFieldOrder(s.hour, t.hour, 2, ':', a4, b4);
    var a3, b3 := Digits(s.hour, 2) + ([':'] + a4), Digits(t.hour, 2) + ([':'] + b4);
    SeparatedFieldOrder(s.day, t.day, 2, 'T', a3, b3);
    var a2, b2 := Digits(s.day, 2) + (['T'] + a3), Digits(t.day, 2) + (['T'] + b3);
    SeparatedFieldOrder(s.month, t.month, 2, '-', a2, b2);
    var a1, b1 := Digits(s.month, 2) + (['-'] + a2), Digits(t.month, 2) + (['-'] + b2);
    SeparatedFieldOrder(s.year, t.year, 4, '-', a1, b1);
  }

  lemma FractionOrder(m: nat, n: nat)
    requires m < 1_000_000 && n < 1_000_000
    ensures Lex(CharLeq, "." + (Digits(m, 6) + UTC), "." + (Digits(n, 6) + UTC)) <==> m <= n
    ensures Lex(CharLeq, IsoTail(m), IsoTail(n)) <==> m <= n
  {
    assert Pow10(2) == 100 && Pow10(4) == 100 * Pow10(2) && Pow10(6) == 100 * Pow10(4);
    LexCommonPrefix(CharLeq, ".", Digits(m, 6) + UTC, Digits(n, 6) + UTC);
    FieldOrder(m, n, 6, UTC, UTC);
    LexCommonPrefix(CharLeq, UTC, [], []);
    assert UTC + [] == UTC;
    assert IsoTail(m)[0] == (if m == 0 then '+' else '.') && IsoTail(n)[0] == (if n == 0 then '+' else '.');
  }

  /** Comparing the texts compares the instants: `ts()` strings with each
      other, and `isoformat()` strings with each other, with or without a
      fraction on either side. Equal texts are equal instants. */
  lemma TextOrderIsTimeOrder(a: Moment, b: Moment)
    requires Valid(a) && Valid(b)
    ensures Lex(CharLeq, Ts(a), Ts(b)) <==> Instant(a) <= Instant(b)
    ensures Lex(CharLeq, Iso(a), Iso(b)) <==> Instant(a) <= Instant(b)
    ensures Ts(a) == Ts(b) <==> Instant(a) == Instant(b)
    ensures Iso(a) == Iso(b) <==> Instant(a) == Instant(b)
  {
    TimeOrderOneWay(a, b);
    TimeOrderOneWay(b, a);
    if Instant(a) == Instant(b) {
      FieldsOrderInstants(a, b);
      FieldsOrderInstants(b, a);
      assert a == b;
    }
  }

  lemma TimeOrderOneWay(a: Moment, b: Moment)
    requires Valid(a) && Valid(b)
    ensures Lex(CharLeq, Ts(a), Ts(b)) <==> Instant(a) <= Instant(b)
    ensures Lex(CharLeq, Iso(a), Iso(b)) <==> Instant(a) <= Instant(b)
  {
    FieldsOrderInstants(a, b);
    FieldsOrderInstants(b, a);
    FractionOrder(a.micro, b.micro);
    TextOrder(a, b, "." + (Digits(a.micro, 6) + UTC), "." + (Digits(b.micro, 6) + UTC));
    TextOrder(a, b, IsoTail(a.micro), IsoTail(b.micro));
  }

  /** As the queue and the cross-post collapse compare them: one text is less
      than the other exactly when its instant is earlier. */
  lemma LessTextIsEarlier(a: Moment, b: Moment)
    requires Valid(a) && Valid(b)
    ensures TextLess(Ts(a), Ts(b)) <==> Instant(a) < Instant(b)
    ensures TextLess(Iso(a), Iso(b)) <==> Instant(a) < Instant(b)
  {
    TextOrderIsTimeOrder(a, b);
  }

  /** Reading decimal digits, '0' to '9', from the left. */
  function Read(s: string): int {
    if s == [] then 0 else 10 * Read(s[..|s| - 1]) + (s[|s| - 1] as int - 48)
  }

  /** The digits of a field are its number, read back. */
  lemma {:induction false} DigitsReadBack(n: nat, width: nat)
    requires n < Pow10(width)
    ensures Read(Digits(n, width)) == n
  {
    if width > 0 {
      var init, last := Digits(n / 10, width - 1), "0123456789"[n % 10];
      DigitsReadBack(n / 10, width - 1);
      assert Digits(n, width) == init + [last] && (init + [last])[..|init|] == init;
      assert last as int - 48 == n % 10;
    }
  }

  /** Six digits of a fraction in the one, and none for a zero fraction in the
      other; both in UTC. */
  lemma FractionAndZone(t: Moment)
    ensures Ts(t) == Text(t, "." + (Digits(t.micro, 6) + "+00:00"))
    ensures Iso(t) == if t.micro == 0 then Text(t, "+00:00") else Ts(t)
  {
  }

  // ---------- the calendar -----------------------------------------------------------

  /** Thirty days have April, June, September and November; February has 28,
      or 29 in a year divisible by four, but not by a hundred unless by four
      hundred. */
  lemma CalendarIsGregorian(y: nat, m: nat)
    requires 1 <= m <= 12
    ensures m in {4, 6, 9, 11} ==> DaysInMonth(y, m) == 30
    ensures m in {1, 3, 5, 7, 8, 10, 12} ==> DaysInMonth(y, m) == 31
    ensures m == 2 ==> DaysInMonth(y, m) == if y % 400 == 0 then 29 else if y % 100 == 0 then 28 else if y % 4 == 0 then 29 else 28
  {
  }

  function DayAfter(t: Moment): Moment {
    if t.day < DaysInMonth(t.year, t.month) then t.(day := t.day + 1)
    else if t.month < 12 then t.(day := 1, month := t.month + 1)
    else t.(day := 1, month := 1, year := t.year + 1)
  }

  /** The next day, over the ends of months and years, is 24 hours later. */
  lemma DayAfterIsADayLater(t: Moment)
    requires Valid(t)
    ensures Instant(DayAfter(t)) == Instant(t) + 86_400_000_000
    ensures Valid(DayAfter(t)) <==> !(t.year == 9999 && t.month == 12 && t.day == 31)
  {
    var next := DayAfter(t);
    if t.day == DaysInMonth(t.year, t.month) && t.month == 12 { MonthsFillTheYear(t.year); }
    assert DaysInMonth(next.year, next.month) >= 28;
    assert Days(next) == Days(t) + 1;
    assert Instant(next) - Instant(t) == (Days(next) - Days(t)) * 86_400_000_000;
  }

  const FIRST := Moment(1000, 1, 1, 0, 0, 0, 0)
  const LAST := Moment(9999, 12, 31, 23, 59, 59, 999_999)

  lemma {:induction false} DayAt(days: nat) returns (t: Moment)
    requires Days(FIRST) <= days <= Days(LAST)
    ensures Valid(t) && Days(t) == days && t.hour == 0 && t.minute == 0 && t.second == 0 && t.micro == 0
    decreases days
  {
    if days == Days(FIRST) {
      t := FIRST;
    } else {
      var before := DayAt(days - 1);
      DayAfterIsADayLater(before);
      t := DayAfter(before);
    }
  }

  /** Hours, minutes, seconds and microseconds fill the day. */
  lemma ClockAt(day: Moment, micros: nat) returns (t: Moment)
    requires Valid(day) && micros < 86_400_000_000
    ensures Valid(t) && ClockMicros(t) == micros && Days(t) == Days(day)
  {
    var seconds, micro := micros / 1_000_000, micros % 1_000_000;
    var minutes, second := seconds / 60, seconds % 60;
    var hour, minute := minutes / 60, minutes % 60;
    t := day.(hour := hour, minute := minute, second := second, micro := micro);
  }

  lemma OneMoment(t: Moment, u: Moment)
    requires Valid(t) && Valid(u) && Instant(t) == Instant(u)
    ensures t == u
  {
    FieldsOrderInstants(t, u);
    FieldsOrderInstants(u, t);
  }

  lemma DayOfInstant(n: nat, t: Moment)
    requires Valid(t)
    ensures n >= Instant(t) && t.hour == 0 && t.minute == 0 && t.second == 0 && t.micro == 0 ==> n / 86_400_000_000 >= Days(t)
    ensures n <= Instant(t) ==> n / 86_400_000_000 <= Days(t)
  {
    InstantSplits(t);
  }

  /** Every microsecond from the year 1000 to the end of 9999 is the instant of
      one valid moment, and of no other. */
  lemma EveryInstantHasItsMoment(n: nat) returns (t: Moment)
    requires Instant(FIRST) <= n <= Instant(LAST)
    ensures Valid(t) && Instant(t) == n
    ensures forall u :: Valid(u) && Instant(u) == n ==> u == t
  {
    DayOfInstant(n, FIRST);
    DayOfInstant(n, LAST);
    var day := DayAt(n / 86_400_000_000);
    t := ClockAt(day, n % 86_400_000_000);
    InstantSplits(t);
    forall u | Valid(u) && Instant(u) == n ensures u == t { OneMoment(t, u); }
  }
}
