/** Instants and the RFC 3339 text in which the incident store keeps them.

    An instant is a number of nanoseconds since 0000-01-01T00:00:00Z of the proleptic
    Gregorian calendar.  The store prints instants with trailing fractional zeros
    trimmed and compares the resulting texts byte by byte, so the question this module
    answers is when byte order of the texts is the order of the instants. */
module Timestamps {

  type Time = int

  const SECOND: int := 1_000_000_000
  const MINUTE: int := 60 * SECOND
  const HOUR: int := 60 * MINUTE
  const DAY_SECONDS: int := 86_400

  /** The first instant of year 10000: beyond it a year no longer has four digits. */
  const END_DAY: int := 3_652_425
  const END_OF_TIME: Time := END_DAY * DAY_SECONDS * SECOND

  predicate InRange(t: Time) {
    0 <= t < END_OF_TIME
  }

  function Seconds(t: Time): int {
    t / SECOND
  }

  /** The whole-second instant at or before `t`: what survives a round trip through
      a Kubernetes status field. */
  function TruncateToSecond(t: Time): (r: Time)
    ensures r <= t < r + SECOND && r % SECOND == 0
  {
    t / SECOND * SECOND
  }

  // ---------- calendar ----------

  predicate IsLeap(y: nat) {
    y % 4 == 0 && (y % 100 != 0 || y % 400 == 0)
  }

  function YearLength(y: nat): (d: nat)
    ensures 365 <= d <= 366
  {
    if IsLeap(y) then 366 else 365
  }

  function DaysBeforeYear(y: nat): (d: nat)
    ensures d >= 365 * y
  {
    if y == 0 then 0 else DaysBeforeYear(y - 1) + YearLength(y - 1)
  }

  lemma {:induction false} LeapSteps(y: nat)
    ensures (y + 4) / 4 - (y + 3) / 4 == if y % 4 == 0 then 1 else 0
    ensures (y + 100) / 100 - (y + 99) / 100 == if y % 100 == 0 then 1 else 0
    ensures (y + 400) / 400 - (y + 399) / 400 == if y % 400 == 0 then 1 else 0
    ensures YearLength(y) == 365 + (y + 4) / 4 - (y + 3) / 4 - ((y + 100) / 100 - (y + 99) / 100)
                             + (y + 400) / 400 - (y + 399) / 400
  {
    assert y % 100 == 0 ==> y % 4 == 0;
    assert y % 400 == 0 ==> y % 100 == 0;
  }

  /** The Gregorian leap rule in closed form. */
  lemma {:induction false} GregorianCount(y: nat)
    ensures DaysBeforeYear(y) == 365 * y + (y + 3) / 4 - (y + 99) / 100 + (y + 399) / 400
  {
    if y > 0 {
      GregorianCount(y - 1);
      LeapSteps(y - 1);
    }
  }

  function YearFrom(day: nat, y: nat): (r: nat)
    requires DaysBeforeYear(y) <= day
    ensures y <= r && DaysBeforeYear(r) <= day < DaysBeforeYear(r + 1)
    decreases day - DaysBeforeYear(y)
  {
    if day < DaysBeforeYear(y + 1) then y else YearFrom(day, y + 1)
  }

  lemma {:induction false} YearsAscend(y: nat, z: nat)
    requires y <= z
    ensures DaysBeforeYear(y) <= DaysBeforeYear(z)
    decreases z
  {
    if y < z {
      YearsAscend(y, z - 1);
    }
  }

  /** Months and days are counted from zero. */
  function MonthLength(m: nat, leap: bool): (d: nat)
    ensures 28 <= d <= 31
  {
    if m == 1 then (if leap then 29 else 28)
    else if m == 3 || m == 5 || m == 8 || m == 10 then 30
    else 31
  }

  function DaysBeforeMonth(m: nat, leap: bool): nat {
    if m == 0 then 0 else DaysBeforeMonth(m - 1, leap) + MonthLength(m - 1, leap)
  }

  lemma {:induction false} TwelveMonths(leap: bool)
    ensures DaysBeforeMonth(12, leap) == if leap then 366 else 365
  {
    assert DaysBeforeMonth(1, leap) == 31;
    assert DaysBeforeMonth(2, leap) == if leap then 60 else 59;
    assert DaysBeforeMonth(4, leap) == if leap then 121 else 120;
    assert DaysBeforeMonth(6, leap) == if leap then 182 else 181;
    assert DaysBeforeMonth(8, leap) == if leap then 244 else 243;
    assert DaysBeforeMonth(10, leap) == if leap then 305 else 304;
  }

  function MonthFrom(dayOfYear: nat, leap: bool, m: nat): (r: nat)
    requires m <= 12 && DaysBeforeMonth(m, leap) <= dayOfYear < DaysBeforeMonth(12, leap)
    ensures r < 12 && DaysBeforeMonth(r, leap) <= dayOfYear < DaysBeforeMonth(r + 1, leap)
    decreases 12 - m
  {
    if dayOfYear < DaysBeforeMonth(m + 1, leap) then m else MonthFrom(dayOfYear, leap, m + 1)
  }

  /** Civil fields of a day, each small enough to print with a fixed number of digits. */
  datatype Date = Date(year: nat, month: nat, day: nat)

  function DateOf(day: nat): (d: Date)
    ensures d.month < 12 && d.day < 31
    ensures day == DaysBeforeYear(d.year) + DaysBeforeMonth(d.month, IsLeap(d.year)) + d.day
    ensures DaysBeforeYear(d.year) <= day < DaysBeforeYear(d.year + 1)
    ensures DaysBeforeMonth(d.month, IsLeap(d.year)) + d.day < DaysBeforeMonth(d.month + 1, IsLeap(d.year))
  {
    assert DaysBeforeYear(0) == 0;
    var y := YearFrom(day, 0);
    TwelveMonths(IsLeap(y));
    var dayOfYear := day - DaysBeforeYear(y);
    var m := MonthFrom(dayOfYear, IsLeap(y), 0);
    Date(y, m, dayOfYear - DaysBeforeMonth(m, IsLeap(y)))
  }

  predicate DateBefore(a: Date, b: Date) {
    a.year < b.year ||
    (a.year == b.year && (a.month < b.month || (a.month == b.month && a.day < b.day)))
  }

  lemma {:induction false} MonthsAscend(m: nat, n: nat, leap: bool)
    requires m < n
    ensures DaysBeforeMonth(m + 1, leap) <= DaysBeforeMonth(n, leap)
    decreases n
  {
    if m + 1 < n {
      MonthsAscend(m, n - 1, leap);
    }
  }

  lemma {:induction false} DatesAscend(p: nat, q: nat)
    requires p < q
    ensures DateBefore(DateOf(p), DateOf(q))
  {
    var a, b := DateOf(p), DateOf(q);
    CountsOrderDates(a, b, DaysBeforeYear(a.year), DaysBeforeYear(b.year));
  }

  /** Two dates whose day counts are in order are in order themselves. */
  lemma {:induction false} CountsOrderDates(a: Date, b: Date, before: nat, before': nat)
    requires before == DaysBeforeYear(a.year) && before' == DaysBeforeYear(b.year)
    requires before + DaysBeforeMonth(a.month, IsLeap(a.year)) + a.day <
             before' + DaysBeforeMonth(b.month, IsLeap(b.year)) + b.day < DaysBeforeYear(b.year + 1)
    requires DaysBeforeMonth(b.month, IsLeap(b.year)) + b.day < DaysBeforeMonth(b.month + 1, IsLeap(b.year))
    ensures DateBefore(a, b)
  {
    if b.year < a.year {
      YearsAscend(b.year + 1, a.year);
    } else if a.year == b.year && b.month < a.month {
      MonthsAscend(b.month, a.month, IsLeap(a.year));
    }
  }

  // ---------- byte order of texts ----------

  /** SQLite's BINARY collation: byte order, a proper prefix first. */
  predicate LexLess(a: string, b: string) {
    b != [] && (a == [] || a[0] < b[0] || (a[0] == b[0] && LexLess(a[1..], b[1..])))
  }

  /** `a` sorts before `b` because of a position that both have. */
  ghost predicate SplitLess(a: string, b: string) {
    exists i: nat :: SplitsAt(a, b, i)
  }

  ghost predicate SplitsAt(a: string, b: string, i: nat) {
    i < |a| && i < |b| && a[..i] == b[..i] && a[i] < b[i]
  }

  lemma {:induction false} SplitDecides(a: string, b: string, i: nat)
    requires SplitsAt(a, b, i)
    ensures LexLess(a, b) && !LexLess(b, a)
    decreases i
  {
    if i > 0 {
      assert a[..i][0] == b[..i][0];
      assert a[1..][..i - 1] == a[..i][1..] && b[1..][..i - 1] == b[..i][1..];
      SplitDecides(a[1..], b[1..], i - 1);
    }
  }

  lemma {:induction false} SplitUnder(p: string, a: string, b: string, x: string, y: string)
    requires SplitLess(a, b)
    ensures SplitLess(p + a + x, p + b + y)
  {
    var i: nat :| SplitsAt(a, b, i);
    var l, r := p + a + x, p + b + y;
    assert l[..|p| + i] == p + a[..i] && r[..|p| + i] == p + b[..i];
    assert SplitsAt(l, r, |p| + i);
  }

  // ---------- decimal fields ----------

  function Pow10(w: nat): (p: nat)
    ensures p > 0
  {
    if w == 0 then 1 else 10 * Pow10(w - 1)
  }

  function Digit(d: nat): char
    requires d < 10
  {
    (48 + d) as char
  }

  /** `n` in exactly `w` decimal digits. */
  function Digits(n: nat, w: nat): (s: string)
    requires n < Pow10(w)
    ensures |s| == w
  {
    if w == 0 then "" else Digits(n / 10, w - 1) + [Digit(n % 10)]
  }

  lemma {:induction false} DigitsAscend(n: nat, m: nat, w: nat)
    requires n < m < Pow10(w)
    ensures SplitLess(Digits(n, w), Digits(m, w))
  {
    if n / 10 < m / 10 {
      DigitsAscend(n / 10, m / 10, w - 1);
      SplitUnder("", Digits(n / 10, w - 1), Digits(m / 10, w - 1), [Digit(n % 10)], [Digit(m % 10)]);
      assert "" + Digits(n / 10, w - 1) + [Digit(n % 10)] == Digits(n, w);
      assert "" + Digits(m / 10, w - 1) + [Digit(m % 10)] == Digits(m, w);
    } else {
      assert n / 10 == m / 10 && n % 10 < m % 10;
      assert Digits(n, w)[..w - 1] == Digits(m, w)[..w - 1];
      assert SplitsAt(Digits(n, w), Digits(m, w), w - 1);
    }
  }

  /** The fraction digits with trailing zeros removed. */
  function TrimZeros(s: string): (r: string)
    ensures |r| <= |s| && r == s[..|r|]
    ensures forall i :: |r| <= i < |s| ==> s[i] == '0'
    ensures r != [] ==> r[|r| - 1] != '0'
  {
    if s != [] && s[|s| - 1] == '0' then TrimZeros(s[..|s| - 1]) else s
  }

  /** The trimmed fractional digits of an instant, empty on a whole second. */
  function Fraction(t: Time): string {
    assert Pow10(9) == 1_000_000_000 by { assert Pow10(5) == 100_000; }
    TrimZeros(Digits(t % SECOND, 9))
  }

  /** The printed fraction and the zone letter. */
  function Tail(t: Time): string {
    if Fraction(t) == "" then "Z" else "." + Fraction(t) + "Z"
  }

  // ---------- the printed form ----------

  function Triple(x: string, sep: char, y: string, z: string): string {
    x + [sep] + y + [sep] + z
  }

  lemma {:induction false} TriplesAscend(x: string, y: string, z: string, sep: char, x': string, y': string, z': string)
    requires SplitLess(x, x') || (x == x' && (SplitLess(y, y') || (y == y' && SplitLess(z, z'))))
    ensures SplitLess(Triple(x, sep, y, z), Triple(x', sep, y', z'))
  {
    var s := [sep];
    if SplitLess(x, x') {
      SplitUnder("", x, x', s + y + s + z, s + y' + s + z');
      assert "" + x + (s + y + s + z) == Triple(x, sep, y, z);
      assert "" + x' + (s + y' + s + z') == Triple(x', sep, y', z');
    } else if SplitLess(y, y') {
      SplitUnder(x + s, y, y', s + z, s + z');
      assert (x + s) + y + (s + z) == Triple(x, sep, y, z);
      assert (x + s) + y' + (s + z') == Triple(x', sep, y', z');
    } else {
      SplitUnder(x + s + y + s, z, z', "", "");
      assert (x + s + y + s) + z + "" == Triple(x, sep, y, z);
      assert (x + s + y + s) + z' + "" == Triple(x', sep, y', z');
    }
  }

  function DateText(d: Date): (s: string)
    requires d.year < 10_000 && d.month < 12 && d.day < 31
    ensures |s| == 10
  {
    assert Pow10(2) == 100 && Pow10(4) == 10_000;
    Triple(Digits(d.year, 4), '-', Digits(d.month + 1, 2), Digits(d.day + 1, 2))
  }

  function ClockText(h: nat, m: nat, s: nat): (r: string)
    requires h < 24 && m < 60 && s < 60
    ensures |r| == 8
  {
    assert Pow10(2) == 100;
    Triple(Digits(h, 2), ':', Digits(m, 2), Digits(s, 2))
  }

  /** Date, `T` and clock. */
  function CivilText(d: Date, h: nat, m: nat, s: nat): (r: string)
    requires d.year < 10_000 && d.month < 12 && d.day < 31 && h < 24 && m < 60 && s < 60
    ensures |r| == 19
  {
    DateText(d) + "T" + ClockText(h, m, s)
  }

  /** The nineteen characters every in-range instant has. */
  function Stamp(day: nat, secondOfDay: nat): (s: string)
    requires day < END_DAY && secondOfDay < DAY_SECONDS
    ensures |s| == 19
  {
    YearInFourDigits(day);
    CivilText(DateOf(day), secondOfDay / 3600, secondOfDay / 60 % 60, secondOfDay % 60)
  }

  function SecondText(sec: nat): (s: string)
    requires sec < END_DAY * DAY_SECONDS
    ensures |s| == 19
  {
    Stamp(sec / DAY_SECONDS, sec % DAY_SECONDS)
  }

  lemma {:induction false} YearInFourDigits(day: nat)
    requires day < END_DAY
    ensures DateOf(day).year < 10_000
  {
    GregorianCount(DateOf(day).year);
  }

  /** Go's `Format(time.RFC3339Nano)` of a UTC time in years 0000 to 9999. */
  function Rfc3339Nano(t: Time): string
    requires InRange(t)
  {
    SecondText(Seconds(t)) + Tail(t)
  }

  // ---------- what the text says ----------

  /** The number a row of digits stands for. */
  function Value(s: string): int {
    if s == "" then 0 else 10 * Value(s[..|s| - 1]) + (s[|s| - 1] as int - 48)
  }

  lemma {:induction false} DigitsRead(n: nat, w: nat)
    requires n < Pow10(w)
    ensures Value(Digits(n, w)) == n
    ensures forall i :: 0 <= i < w ==> '0' <= Digits(n, w)[i] <= '9'
  {
    if w > 0 {
      DigitsRead(n / 10, w - 1);
      assert Digits(n, w)[..w - 1] == Digits(n / 10, w - 1);
    }
  }

  /** The day of a civil date, counted from 0000-01-01. */
  function DayNumber(d: Date): nat {
    DaysBeforeYear(d.year) + DaysBeforeMonth(d.month, IsLeap(d.year)) + d.day
  }

  predicate IsCivil(d: Date) {
    d.year < 10_000 && d.month < 12 && d.day < MonthLength(d.month, IsLeap(d.year))
  }

  lemma {:induction false} SameYear(y: nat, z: nat, day: nat)
    requires DaysBeforeYear(y) <= day < DaysBeforeYear(y + 1) && DaysBeforeYear(z) <= day < DaysBeforeYear(z + 1)
    ensures y == z
  {
    if y < z {
      YearsAscend(y + 1, z);
    } else if z < y {
      YearsAscend(z + 1, y);
    }
  }

  lemma {:induction false} SameMonth(m: nat, n: nat, leap: bool, day: nat)
    requires DaysBeforeMonth(m, leap) <= day < DaysBeforeMonth(m + 1, leap)
    requires DaysBeforeMonth(n, leap) <= day < DaysBeforeMonth(n + 1, leap)
    ensures m == n
  {
    if m < n {
      MonthsAscend(m, n, leap);
    } else if n < m {
      MonthsAscend(n, m, leap);
    }
  }

  lemma {:induction false} DayInYear(d: Date)
    requires IsCivil(d)
    ensures DaysBeforeYear(d.year) <= DayNumber(d) < DaysBeforeYear(d.year + 1)
    ensures DaysBeforeMonth(d.month, IsLeap(d.year)) + d.day < DaysBeforeMonth(d.month + 1, IsLeap(d.year))
  {
    MonthsAscend(d.month, 12, IsLeap(d.year));
    TwelveMonths(IsLeap(d.year));
  }

  /** A civil date is the date of its day. */
  lemma {:induction false} DateOfDay(d: Date)
    requires IsCivil(d)
    ensures DateOf(DayNumber(d)) == d
  {
    var day := DayNumber(d);
    var e := DateOf(day);
    DayInYear(d);
    SameYear(e.year, d.year, day);
    SameMonth(e.month, d.month, IsLeap(d.year), day - DaysBeforeYear(d.year));
  }

  /** The second of a civil date and clock. */
  function SecondNumber(d: Date, h: nat, m: nat, s: nat): nat {
    DayNumber(d) * DAY_SECONDS + h * 3600 + m * 60 + s
  }

  lemma {:induction false} DayInRange(d: Date)
    requires IsCivil(d)
    ensures DayNumber(d) < END_DAY
  {
    DayInYear(d);
    YearsAscend(d.year + 1, 10_000);
    GregorianCount(10_000);
  }

  lemma {:induction false} ClockParts(h: nat, m: nat, s: nat)
    requires h < 24 && m < 60 && s < 60
    ensures var rest := h * 3600 + m * 60 + s;
            rest < DAY_SECONDS && rest / 3600 == h && rest / 60 % 60 == m && rest % 60 == s
  {
    var minutes := h * 60 + m;
    var rest := minutes * 60 + s;
    assert rest / 60 == minutes && rest % 60 == s;
    assert minutes / 60 == h && minutes % 60 == m;
  }

  lemma {:induction false} StampText(day: nat, d: Date, h: nat, m: nat, s: nat)
    requires day < END_DAY && DateOf(day) == d && h < 24 && m < 60 && s < 60
    ensures d.year < 10_000 && Stamp(day, h * 3600 + m * 60 + s) == CivilText(d, h, m, s)
  {
    YearInFourDigits(day);
    ClockParts(h, m, s);
  }

  lemma {:induction false} DayAndRest(sec: nat, day: nat, rest: nat)
    requires day < END_DAY && rest < DAY_SECONDS && sec == day * DAY_SECONDS + rest
    ensures sec < END_DAY * DAY_SECONDS && sec / DAY_SECONDS == day && sec % DAY_SECONDS == rest
  {}

  lemma {:induction false} PrintsSecond(sec: nat, day: nat, d: Date, h: nat, m: nat, s: nat)
    requires day < END_DAY && DateOf(day) == d && h < 24 && m < 60 && s < 60
    requires sec == day * DAY_SECONDS + (h * 3600 + m * 60 + s)
    ensures d.year < 10_000 && sec < END_DAY * DAY_SECONDS
    ensures SecondText(sec) == CivilText(d, h, m, s)
  {
    var rest := h * 3600 + m * 60 + s;
    DayAndRest(sec, day, rest);
    SameStamp(sec, day, rest);
    StampText(day, d, h, m, s);
  }

  lemma {:induction false} SameStamp(sec: nat, day: nat, rest: nat)
    requires sec < END_DAY * DAY_SECONDS && sec / DAY_SECONDS == day && sec % DAY_SECONDS == rest
    ensures SecondText(sec) == Stamp(day, rest)
  {}

  /** The printed text shows the civil date and the clock of its instant. */
  lemma {:induction false} PrintsCivilTime(t: Time, d: Date, h: nat, m: nat, s: nat)
    requires InRange(t) && IsCivil(d) && h < 24 && m < 60 && s < 60 && Seconds(t) == SecondNumber(d, h, m, s)
    ensures Rfc3339Nano(t) == CivilText(d, h, m, s) + Tail(t)
  {
    DayInRange(d);
    DateOfDay(d);
    PrintsSecond(Seconds(t), DayNumber(d), d, h, m, s);
  }

  /** Year, month and day, and the parts of the clock, each in its fixed width. */
  lemma {:induction false} PrintsFields(d: Date, h: nat, m: nat, s: nat)
    requires IsCivil(d) && h < 24 && m < 60 && s < 60
    ensures Pow10(2) == 100 && Pow10(4) == 10_000
    ensures CivilText(d, h, m, s) ==
            (Digits(d.year, 4) + "-" + Digits(d.month + 1, 2) + "-" + Digits(d.day + 1, 2)) + "T" +
            (Digits(h, 2) + ":" + Digits(m, 2) + ":" + Digits(s, 2))
  {
    assert Pow10(2) == 100 && Pow10(4) == 10_000;
  }

  /** A whole second has no fraction; otherwise the point is followed by the nine digits of
      the nanoseconds without their trailing zeros. */
  lemma {:induction false} PrintsFraction(t: Time) returns (f: string, zeros: string)
    ensures Pow10(9) == SECOND && f + zeros == Digits(t % SECOND, 9)
    ensures Tail(t) == if t % SECOND == 0 then "Z" else "." + f + "Z"
    ensures f != "" ==> f[|f| - 1] != '0'
    ensures forall i :: 0 <= i < |zeros| ==> zeros[i] == '0'
  {
    NineDigits();
    var all := Digits(t % SECOND, 9);
    f := TrimZeros(all);
    zeros := all[|f|..];
    assert f == Fraction(t) && all == all[..|f|] + zeros;
    if t % SECOND == 0 {
      WholeSecondHasNoFraction(t);
    } else {
      SomeFraction(t);
    }
  }

  lemma {:induction false} NineDigits()
    ensures Pow10(9) == SECOND
  {
    assert Pow10(5) == 100_000;
  }

  lemma {:induction false} SomeFraction(t: Time)
    requires t % SECOND != 0
    ensures Fraction(t) != ""
  {
    NineDigits();
    if Fraction(t) == "" {
      AllZeros(Digits(t % SECOND, 9));
      DigitsRead(t % SECOND, 9);
    }
  }

  lemma {:induction false} AllZeros(s: string)
    requires forall i :: 0 <= i < |s| ==> s[i] == '0'
    ensures Value(s) == 0
  {
    if s != "" {
      AllZeros(s[..|s| - 1]);
    }
  }

  lemma {:induction false} DateTextsAscend(a: Date, b: Date)
    requires a.year < 10_000 && a.month < 12 && a.day < 31
    requires b.year < 10_000 && b.month < 12 && b.day < 31
    requires DateBefore(a, b)
    ensures SplitLess(DateText(a), DateText(b))
  {
    assert Pow10(2) == 100 && Pow10(4) == 10_000;
    if a.year < b.year {
      DigitsAscend(a.year, b.year, 4);
    } else if a.month < b.month {
      DigitsAscend(a.month + 1, b.month + 1, 2);
    } else {
      DigitsAscend(a.day + 1, b.day + 1, 2);
    }
    TriplesAscend(Digits(a.year, 4), Digits(a.month + 1, 2), Digits(a.day + 1, 2), '-',
                  Digits(b.year, 4), Digits(b.month + 1, 2), Digits(b.day + 1, 2));
  }

  lemma {:induction false} ClockTextsAscend(h: nat, m: nat, s: nat, h': nat, m': nat, s': nat)
    requires h < 24 && m < 60 && s < 60 && h' < 24 && m' < 60 && s' < 60
    requires h < h' || (h == h' && (m < m' || (m == m' && s < s')))
    ensures SplitLess(ClockText(h, m, s), ClockText(h', m', s'))
  {
    assert Pow10(2) == 100;
    if h < h' {
      DigitsAscend(h, h', 2);
    } else if m < m' {
      DigitsAscend(m, m', 2);
    } else {
      DigitsAscend(s, s', 2);
    }
    TriplesAscend(Digits(h, 2), Digits(m, 2), Digits(s, 2), ':', Digits(h', 2), Digits(m', 2), Digits(s', 2));
  }

  lemma {:induction false} ClockFieldsAscend(x: nat, y: nat)
    requires x < y < DAY_SECONDS
    ensures x / 3600 < y / 3600 ||
            (x / 3600 == y / 3600 && (x / 60 % 60 < y / 60 % 60 || (x / 60 % 60 == y / 60 % 60 && x % 60 < y % 60)))
  {
    assert x / 60 <= y / 60;
    assert x / 3600 == x / 60 / 60 && y / 3600 == y / 60 / 60;
  }

  lemma {:induction false} PairsAscend(d: string, c: string, d': string, c': string)
    requires SplitLess(d, d') || (d == d' && SplitLess(c, c'))
    ensures SplitLess(d + "T" + c, d' + "T" + c')
  {
    if SplitLess(d, d') {
      SplitUnder("", d, d', "T" + c, "T" + c');
      assert "" + d + ("T" + c) == d + "T" + c;
      assert "" + d' + ("T" + c') == d' + "T" + c';
    } else {
      SplitUnder(d + "T", c, c', "", "");
      assert (d + "T") + c + "" == d + "T" + c;
      assert (d + "T") + c' + "" == d + "T" + c';
    }
  }

  lemma {:induction false} StampsAscend(day: nat, sod: nat, day': nat, sod': nat)
    requires day < END_DAY && day' < END_DAY && sod < DAY_SECONDS && sod' < DAY_SECONDS
    requires day < day' || (day == day' && sod < sod')
    ensures SplitLess(Stamp(day, sod), Stamp(day', sod'))
  {
    YearInFourDigits(day);
    YearInFourDigits(day');
    var c := ClockText(sod / 3600, sod / 60 % 60, sod % 60);
    var c' := ClockText(sod' / 3600, sod' / 60 % 60, sod' % 60);
    if day < day' {
      DatesAscend(day, day');
      DateTextsAscend(DateOf(day), DateOf(day'));
    } else {
      ClockFieldsAscend(sod, sod');
      ClockTextsAscend(sod / 3600, sod / 60 % 60, sod % 60, sod' / 3600, sod' / 60 % 60, sod' % 60);
    }
    PairsAscend(DateText(DateOf(day)), c, DateText(DateOf(day')), c');
  }

  lemma {:induction false} SecondTextsAscend(p: nat, q: nat)
    requires p < q < END_DAY * DAY_SECONDS
    ensures SplitLess(SecondText(p), SecondText(q))
  {
    StampsAscend(p / DAY_SECONDS, p % DAY_SECONDS, q / DAY_SECONDS, q % DAY_SECONDS);
  }

  lemma {:induction false} SplitOrders(p: string, a: string, b: string, x: string, y: string)
    requires SplitLess(a, b)
    ensures LexLess(p + a + x, p + b + y) && !LexLess(p + b + y, p + a + x)
  {
    SplitUnder(p, a, b, x, y);
    var i: nat :| SplitsAt(p + a + x, p + b + y, i);
    SplitDecides(p + a + x, p + b + y, i);
  }

  /** Across whole seconds byte order is time order, although fractions have no fixed
      width (the condition of section 5.1 of RFC 3339 is not met). */
  lemma {:induction false} OrderAcrossSeconds(t: Time, u: Time)
    requires InRange(t) && InRange(u) && Seconds(t) < Seconds(u)
    ensures LexLess(Rfc3339Nano(t), Rfc3339Nano(u)) && !LexLess(Rfc3339Nano(u), Rfc3339Nano(t))
  {
    SecondTextsAscend(Seconds(t), Seconds(u));
    HeadsOrder(SecondText(Seconds(t)), SecondText(Seconds(u)), Tail(t), Tail(u));
  }

  lemma {:induction false} HeadsOrder(a: string, b: string, x: string, y: string)
    requires SplitLess(a, b)
    ensures LexLess(a + x, b + y) && !LexLess(b + y, a + x)
  {
    SplitOrders("", a, b, x, y);
    assert "" + a + x == a + x && "" + b + y == b + y;
  }

  /** Trimmed fractions of one second split at a digit unless the earlier is a prefix
      of the later. */
  lemma {:induction false} FractionsAscend(t: Time, u: Time)
    requires t % SECOND < u % SECOND
    ensures Fraction(t) <= Fraction(u) || SplitLess(Fraction(t), Fraction(u))
    ensures Fraction(t) != Fraction(u)
  {
    assert Pow10(9) == 1_000_000_000 by { assert Pow10(5) == 100_000; }
    var a, b := Digits(t % SECOND, 9), Digits(u % SECOND, 9);
    DigitsAscend(t % SECOND, u % SECOND, 9);
    var i: nat :| SplitsAt(a, b, i);
    DigitChars(t % SECOND, 9, i);
    var x, y := TrimZeros(a), TrimZeros(b);
    assert b[i] != '0' && i < |y|;
    if i < |x| {
      assert x[..i] == a[..i] == b[..i] == y[..i];
      assert SplitsAt(x, y, i);
    } else {
      assert x == a[..i][..|x|] == b[..i][..|x|] == y[..|x|];
      assert x <= y;
    }
  }

  lemma {:induction false} DigitChars(n: nat, w: nat, i: nat)
    requires n < Pow10(w) && i < w
    ensures '0' <= Digits(n, w)[i] <= '9'
  {
    if i < w - 1 {
      DigitChars(n / 10, w - 1, i);
    }
  }

  /** The exact rule: byte order agrees with time order unless both instants lie in the
      same second and the earlier one's trimmed fraction is a prefix of the later one's. */
  lemma {:induction false} ByteOrderExactly(t: Time, u: Time)
    requires InRange(t) && InRange(u) && t < u
    ensures LexLess(Rfc3339Nano(t), Rfc3339Nano(u)) <==>
            Seconds(t) < Seconds(u) || !(Fraction(t) <= Fraction(u))
    ensures LexLess(Rfc3339Nano(u), Rfc3339Nano(t)) <==> !LexLess(Rfc3339Nano(t), Rfc3339Nano(u))
  {
    if Seconds(t) < Seconds(u) {
      OrderAcrossSeconds(t, u);
    } else {
      assert Seconds(t) == Seconds(u) && t % SECOND < u % SECOND;
      SameSecondOrder(t, u);
    }
  }

  /** The same rule for any two instants. */
  lemma {:induction false} ByteOrderRule(u: Time, cutoff: Time)
    requires InRange(u) && InRange(cutoff)
    ensures LexLess(Rfc3339Nano(u), Rfc3339Nano(cutoff)) <==>
            Seconds(u) < Seconds(cutoff) ||
            (Seconds(u) == Seconds(cutoff) &&
             ((u < cutoff && !(Fraction(u) <= Fraction(cutoff))) ||
              (cutoff < u && Fraction(cutoff) <= Fraction(u))))
  {
    if u < cutoff {
      ByteOrderExactly(u, cutoff);
    } else if u > cutoff {
      ByteOrderExactly(cutoff, u);
    } else {
      LexIrreflexive(Rfc3339Nano(u));
    }
  }

  lemma {:induction false} LexIrreflexive(s: string)
    ensures !LexLess(s, s)
  {
    if s != [] {
      LexIrreflexive(s[1..]);
    }
  }

  lemma {:induction false} SameSecondOrder(t: Time, u: Time)
    requires InRange(t) && InRange(u) && Seconds(t) == Seconds(u) && t % SECOND < u % SECOND
    ensures LexLess(Rfc3339Nano(t), Rfc3339Nano(u)) <==> !(Fraction(t) <= Fraction(u))
    ensures LexLess(Rfc3339Nano(u), Rfc3339Nano(t)) <==> Fraction(t) <= Fraction(u)
  {
    var p := SecondText(Seconds(t));
    TailOrder(t, u);
    if Fraction(t) <= Fraction(u) {
      SplitOrders(p, Tail(u), Tail(t), "", "");
    } else {
      SplitOrders(p, Tail(t), Tail(u), "", "");
    }
    assert p + Tail(t) + "" == Rfc3339Nano(t);
    assert p + Tail(u) + "" == Rfc3339Nano(u);
  }

  lemma {:induction false} TailOrder(t: Time, u: Time)
    requires t % SECOND < u % SECOND
    ensures if Fraction(t) <= Fraction(u) then SplitLess(Tail(u), Tail(t)) else SplitLess(Tail(t), Tail(u))
  {
    var x, y := Fraction(t), Fraction(u);
    FractionsAscend(t, u);
    if x <= y {
      // The later text has a digit or the point where the earlier has its final Z.
      FractionChars(u);
      assert SplitsAt(Tail(u), Tail(t), if x == "" then 0 else 1 + |x|);
    } else {
      SplitUnder(".", x, y, "Z", "Z");
    }
  }

  lemma {:induction false} FractionChars(t: Time)
    ensures forall i :: 0 <= i < |Fraction(t)| ==> '0' <= Fraction(t)[i] <= '9'
  {
    assert Pow10(9) == 1_000_000_000 by { assert Pow10(5) == 100_000; }
    forall i | 0 <= i < |Fraction(t)| ensures '0' <= Fraction(t)[i] <= '9' {
      DigitChars(t % SECOND, 9, i);
    }
  }

  /** A whole second sorts after every later instant of the same second. */
  lemma {:induction false} ByteOrderCanInvert(t: Time, u: Time)
    requires InRange(t) && InRange(u) && Seconds(t) == Seconds(u) && t % SECOND == 0 < u % SECOND
    ensures t < u && LexLess(Rfc3339Nano(u), Rfc3339Nano(t))
  {
    WholeSecondHasNoFraction(t);
    SameSecondOrder(t, u);
  }

  lemma {:induction false} WholeSecondHasNoFraction(t: Time)
    requires t % SECOND == 0
    ensures Fraction(t) == ""
  {
    assert Pow10(9) == 1_000_000_000 by { assert Pow10(5) == 100_000; }
    var f := Fraction(t);
    if f != "" {
      ZeroDigits(9, |f| - 1);
    }
  }

  lemma {:induction false} ZeroDigits(w: nat, i: nat)
    requires i < w
    ensures Digits(0, w)[i] == '0'
  {
    if i < w - 1 {
      ZeroDigits(w - 1, i);
    }
  }
}
