/**
 * Calendar keys. A date is the number of days since 1970-01-01, a Thursday, in
 * the proleptic Gregorian calendar.
 */
module Calendar {
  import opened Text
  import opened Keys

  // ----- Years and months ---------------------------------------------------

  predicate Leap(y: int) {
    y % 4 == 0 && (y % 100 != 0 || y % 400 == 0)
  }

  /** Leap years of the common era before year `y`. */
  function LeapsBefore(y: int): int {
    (y - 1) / 4 - (y - 1) / 100 + (y - 1) / 400
  }

  function YearStart(y: int): int {
    365 * (y - 1970) + LeapsBefore(y) - 477
  }

  /** The closed form is the calendar: 1970 starts at 0, and a year has 365 days, or 366 in a leap year. */
  lemma {:induction false} YearLength(y: int)
    ensures YearStart(1970) == 0
    ensures YearStart(y + 1) == YearStart(y) + (if Leap(y) then 366 else 365)
  {
    FourthYears(y);
    HundredthYears(y);
    FourHundredthYears(y);
    Multiples(y);
  }

  lemma {:induction false} FourthYears(y: int)
    ensures y / 4 - (y - 1) / 4 == if y % 4 == 0 then 1 else 0
  {
  }

  lemma {:induction false} HundredthYears(y: int)
    ensures y / 100 - (y - 1) / 100 == if y % 100 == 0 then 1 else 0
  {
    var q, r := y / 100, y % 100;
    if r == 0 {
      By100(y - 1, q - 1, 99);
    } else {
      By100(y - 1, q, r - 1);
    }
  }

  lemma {:induction false} By100(n: int, q: int, r: int)
    requires n == 100 * q + r && 0 <= r < 100
    ensures n / 100 == q
  {
  }

  lemma {:induction false} FourHundredthYears(y: int)
    ensures y / 400 - (y - 1) / 400 == if y % 400 == 0 then 1 else 0
  {
    var q, r := y / 400, y % 400;
    if r == 0 {
      By400(y - 1, q - 1, 399);
    } else {
      By400(y - 1, q, r - 1);
    }
  }

  lemma {:induction false} By400(n: int, q: int, r: int)
    requires n == 400 * q + r && 0 <= r < 400
    ensures n / 400 == q
  {
  }

  lemma {:induction false} Multiples(y: int)
    ensures y % 100 == 0 ==> y % 4 == 0
    ensures y % 400 == 0 ==> y % 100 == 0
  {
    if y % 100 == 0 {
      MultipleOf4(y, 25 * (y / 100));
    }
    if y % 400 == 0 {
      MultipleOf100(y, 4 * (y / 400));
    }
  }

  lemma {:induction false} MultipleOf4(y: int, k: int)
    requires y == 4 * k
    ensures y % 4 == 0
  {
  }

  lemma {:induction false} MultipleOf100(y: int, k: int)
    requires y == 100 * k
    ensures y % 100 == 0
  {
  }

  function YearFrom(y: nat, n: int): (r: nat)
    requires YearStart(y) <= n
    ensures y <= r && YearStart(r) <= n < YearStart(r + 1)
    decreases n - YearStart(y)
  {
    YearLength(y);
    if n < YearStart(y + 1) then y else YearFrom(y + 1, n)
  }

  function YearOf(n: nat): nat {
    YearFrom(1970, n)
  }

  lemma {:induction false} YearsIncrease(y: int, z: int)
    requires y <= z
    ensures YearStart(y) + 365 * (z - y) <= YearStart(z)
    decreases z - y
  {
    if y < z {
      YearLength(y);
      YearsIncrease(y + 1, z);
    }
  }

  lemma {:induction false} YearIs(n: nat, y: int)
    requires YearStart(y) <= n < YearStart(y + 1)
    ensures YearOf(n) == y
  {
    var r := YearOf(n);
    if r < y {
      YearsIncrease(r + 1, y);
    } else if y < r {
      YearsIncrease(y + 1, r);
    }
  }

  function MonthLength(y: int, m: int): int {
    if m == 2 then (if Leap(y) then 29 else 28)
    else if m == 4 || m == 6 || m == 9 || m == 11 then 30
    else 31
  }

  /** Days of year `y` before month `m`. */
  function MonthStart(y: int, m: nat): nat {
    if m <= 1 then 0 else MonthStart(y, m - 1) + MonthLength(y, m - 1)
  }

  function MonthFrom(y: int, m: nat, day: nat): (r: nat)
    requires 1 <= m <= 12 && MonthStart(y, m) <= day
    ensures m <= r <= 12 && MonthStart(y, r) <= day
    ensures r < 12 ==> day < MonthStart(y, r + 1)
    decreases 12 - m
  {
    if m == 12 || day < MonthStart(y, m + 1) then m else MonthFrom(y, m + 1, day)
  }

  datatype Date = Date(year: nat, month: nat, day: nat)

  function DateOf(n: nat): Date {
    var y := YearOf(n);
    var day := n - YearStart(y);
    var m := MonthFrom(y, 1, day);
    Date(y, m, day - MonthStart(y, m) + 1)
  }

  predicate DateLess(a: Date, b: Date) {
    a.year < b.year || (a.year == b.year && (a.month < b.month || (a.month == b.month && a.day < b.day)))
  }

  lemma {:induction false} TwelveMonths(y: int)
    ensures MonthStart(y, 12) == (if Leap(y) then 335 else 334)
  {
    assert MonthStart(y, 1) == 0;
    assert MonthStart(y, 3) == MonthStart(y, 2) + MonthLength(y, 2);
    assert MonthStart(y, 4) == MonthStart(y, 3) + 31;
    assert MonthStart(y, 6) == MonthStart(y, 5) + 31;
    assert MonthStart(y, 8) == MonthStart(y, 7) + 31;
    assert MonthStart(y, 10) == MonthStart(y, 9) + 30;
  }

  lemma {:induction false} MonthsIncrease(y: int, m: nat, k: nat)
    requires m <= k
    ensures MonthStart(y, m) <= MonthStart(y, k)
    decreases k
  {
    if m < k {
      MonthsIncrease(y, m, k - 1);
    }
  }

  /** The date of `n` is a real date, `n` days after the epoch. */
  lemma {:induction false} DateOfIs(n: nat)
    ensures
      var d := DateOf(n);
      && 1970 <= d.year && 1 <= d.month <= 12 && 1 <= d.day <= MonthLength(d.year, d.month)
      && n == YearStart(d.year) + MonthStart(d.year, d.month) + d.day - 1
  {
    var d := DateOf(n);
    YearLength(d.year);
    TwelveMonths(d.year);
  }

  lemma {:induction false} DatesIncrease(a: nat, b: nat)
    ensures DateLess(DateOf(a), DateOf(b)) <==> a < b
    ensures DateOf(a) == DateOf(b) <==> a == b
  {
    DateOfIs(a);
    DateOfIs(b);
    if a < b {
      DatesAscend(a, b);
    } else if b < a {
      DatesAscend(b, a);
    }
  }

  lemma {:induction false} DatesAscend(a: nat, b: nat)
    requires a < b
    ensures DateLess(DateOf(a), DateOf(b))
  {
    DateOfIs(a);
    DateOfIs(b);
    var c, d := DateOf(a), DateOf(b);
    if d.year < c.year {
      YearsIncrease(d.year + 1, c.year);
    } else if c.year == d.year && d.month < c.month {
      MonthsIncrease(d.year, d.month + 1, c.month);
    }
  }

  // ----- Date keys ----------------------------------------------------------

  /** Last day of the year 9999. */
  const LAST_DAY: nat := YearStart(10000) - 1

  function DateKey(n: nat): string {
    var d := DateOf(n);
    Decimal(d.year) + "-" + PadTwo(Decimal(d.month)) + "-" + PadTwo(Decimal(d.day))
  }

  lemma {:induction false} KeyYear(n: nat)
    requires n <= LAST_DAY
    ensures 1970 <= YearOf(n) <= 9999 && |Decimal(YearOf(n))| == 4
  {
    if YearOf(n) >= 10000 {
      YearsIncrease(10000, YearOf(n));
    }
    FourDigits(YearOf(n));
  }

  /** Date keys are ordered, as strings, as the dates are in time. */
  lemma {:induction false} DateKeyOrder(a: nat, b: nat)
    requires a <= LAST_DAY && b <= LAST_DAY
    ensures Less(DateKey(a), DateKey(b)) <==> a < b
    ensures DateKey(a) == DateKey(b) <==> a == b
  {
    KeyYear(a);
    KeyYear(b);
    DateOfIs(a);
    DateOfIs(b);
    DatesIncrease(a, b);
    DateTextOrder(DateOf(a), DateOf(b));
  }

  lemma {:induction false} DateTextOrder(c: Date, d: Date)
    requires 1000 <= c.year < 10000 && 1000 <= d.year < 10000
    requires c.month < 100 && c.day < 100 && d.month < 100 && d.day < 100
    ensures
      var s := Decimal(c.year) + "-" + PadTwo(Decimal(c.month)) + "-" + PadTwo(Decimal(c.day));
      var t := Decimal(d.year) + "-" + PadTwo(Decimal(d.month)) + "-" + PadTwo(Decimal(d.day));
      (Less(s, t) <==> DateLess(c, d)) && (s == t <==> c == d)
  {
    var y, m, k := Decimal(c.year) + "-", PadTwo(Decimal(c.month)) + "-", PadTwo(Decimal(c.day));
    var z, n, l := Decimal(d.year) + "-", PadTwo(Decimal(d.month)) + "-", PadTwo(Decimal(d.day));
    var s := Decimal(c.year) + "-" + PadTwo(Decimal(c.month)) + "-" + PadTwo(Decimal(c.day));
    var t := Decimal(d.year) + "-" + PadTwo(Decimal(d.month)) + "-" + PadTwo(Decimal(d.day));
    assert s == y + (m + k) && t == z + (n + l);
    FourDigits(c.year);
    FourDigits(d.year);
    DashOrder(Decimal(c.year), Decimal(d.year));
    DecimalOrder(c.year, d.year);
    PadTwoOrder(c.month, d.month);
    DashOrder(PadTwo(Decimal(c.month)), PadTwo(Decimal(d.month)));
    PadTwoOrder(c.day, d.day);
    FieldOrder(y, z, m + k, n + l);
    FieldOrder(m, n, k, l);
  }

  lemma {:induction false} DashOrder(a: string, b: string)
    requires |a| == |b|
    ensures Less(a + "-", b + "-") <==> Less(a, b)
    ensures a + "-" == b + "-" <==> a == b
  {
    FieldOrder(a, b, "-", "-");
    Trichotomy("-", "-");
  }

  // ----- ISO weeks ----------------------------------------------------------

  /** 0 is Sunday. */
  function Weekday(n: nat): nat {
    (n + 4) % 7
  }

  function ThursdayOf(n: nat): (t: nat)
    ensures t % 7 == 0
  {
    var w := Weekday(n);
    n + 4 - (if w == 0 then 7 else w)
  }

  datatype Week = Week(year: nat, number: nat)

  /** As the program computes it: round up the day of the year of the week's Thursday. */
  function WeekOf(n: nat): Week {
    var t := ThursdayOf(n);
    var y := YearOf(t);
    Week(y, (t - YearStart(y) + 1 + 6) / 7)
  }

  function WeekText(w: Week): string {
    Decimal(w.year) + "-W" + PadTwo(Decimal(w.number))
  }

  function IsoWeekKey(n: nat): string {
    WeekText(WeekOf(n))
  }

  /** The Monday-to-Sunday week a day falls in, counted from that of 1970-01-01. */
  function WeekIndex(n: int): int {
    (n + 3) / 7
  }

  /** `t` is the first Thursday on or after day `start`. */
  ghost predicate FirstThursday(start: int, t: int) {
    && start <= t
    && t % 7 == 0
    && forall u :: start <= u < t ==> u % 7 != 0
  }

  lemma {:induction false} FirstThursdayIs(start: int, t: int)
    ensures FirstThursday(start, t) <==> t == (start + 6) / 7 * 7
  {
    var u := (start + 6) / 7 * 7;
    assert start <= u < start + 7 && u % 7 == 0;
  }

  /**
   * Week `w` is week number `w.number` of year `w.year` when it lies that many weeks, less
   * one, after the week of the year's first Thursday, and before the next year's first week
   * (sections 2.2.10 and 4.1.4 of ISO 8601:2004).
   */
  ghost predicate IsIsoWeek(index: int, w: Week) {
    exists t, u :: FirstThursday(YearStart(w.year), t) && FirstThursday(YearStart(w.year + 1), u)
      && index == WeekIndex(t) + w.number - 1 && 1 <= w.number && index < WeekIndex(u)
  }

  /** The same, in closed form. */
  predicate Numbered(index: int, w: Week) {
    && 1 <= w.number
    && index == (YearStart(w.year) + 6) / 7 + w.number - 1
    && index < (YearStart(w.year + 1) + 6) / 7
  }

  lemma {:induction false} IsoWeekIs(index: int, w: Week)
    ensures IsIsoWeek(index, w) <==> Numbered(index, w)
  {
    var s, e := YearStart(w.year), YearStart(w.year + 1);
    var t, u := (s + 6) / 7 * 7, (e + 6) / 7 * 7;
    FirstThursdayIs(s, t);
    FirstThursdayIs(e, u);
    assert WeekIndex(t) == (s + 6) / 7 && WeekIndex(u) == (e + 6) / 7;
    if IsIsoWeek(index, w) {
      var p, q :| FirstThursday(s, p) && FirstThursday(e, q)
        && index == WeekIndex(p) + w.number - 1 && 1 <= w.number && index < WeekIndex(q);
      FirstThursdayIs(s, p);
      FirstThursdayIs(e, q);
    }
  }

  lemma {:induction false} RoundUp(s: int, e: int, t: int)
    requires s <= t < e <= s + 366 && t % 7 == 0
    ensures t / 7 == (s + 6) / 7 + (t - s + 1 + 6) / 7 - 1
    ensures t / 7 < (e + 6) / 7
    ensures 1 <= (t - s + 1 + 6) / 7 <= 53
  {
  }

  lemma {:induction false} WeekOfIs(n: nat)
    ensures Numbered(WeekIndex(n), WeekOf(n)) && IsIsoWeek(WeekIndex(n), WeekOf(n)) && WeekOf(n).number <= 53
  {
    var t, w := ThursdayOf(n), WeekOf(n);
    YearLength(w.year);
    assert WeekIndex(n) == t / 7;
    RoundUp(YearStart(w.year), YearStart(w.year + 1), t);
    IsoWeekIs(WeekIndex(n), w);
  }

  lemma {:induction false} IsoYears(i: int, v: Week, j: int, w: Week)
    requires Numbered(i, v) && Numbered(j, w)
    ensures v.year < w.year ==> i < j
    ensures v.year == w.year ==> i - j == v.number - w.number
  {
    if v.year < w.year {
      YearsIncrease(v.year + 1, w.year);
      RoundUpGrows(YearStart(v.year + 1), YearStart(w.year));
    }
  }

  lemma {:induction false} RoundUpGrows(a: int, b: int)
    requires a <= b
    ensures (a + 6) / 7 <= (b + 6) / 7
  {
  }

  /** The program's week is the ISO week, and the only one. */
  lemma {:induction false} WeekIsIso(n: nat, w: Week)
    ensures WeekOf(n) == w <==> IsIsoWeek(WeekIndex(n), w)
  {
    WeekOfIs(n);
    IsoWeekIs(WeekIndex(n), w);
    if Numbered(WeekIndex(n), w) {
      IsoYears(WeekIndex(n), WeekOf(n), WeekIndex(n), w);
      IsoYears(WeekIndex(n), w, WeekIndex(n), WeekOf(n));
    }
  }

  /** January 4 is always in week 1. */
  lemma {:induction false} JanuaryFourth(y: int)
    requires 1970 <= y
    ensures 0 <= YearStart(y) + 3 && WeekOf(YearStart(y) + 3) == Week(y, 1)
  {
    YearsIncrease(1970, y);
    YearLength(y);
    var n := YearStart(y) + 3;
    YearIs(ThursdayOf(n), y);
  }

  lemma {:induction false} WeeksIncrease(a: nat, b: nat)
    ensures WeekIndex(a) < WeekIndex(b) <==>
              (var v, w := WeekOf(a), WeekOf(b); v.year < w.year || (v.year == w.year && v.number < w.number))
    ensures WeekIndex(a) == WeekIndex(b) <==> WeekOf(a) == WeekOf(b)
  {
    WeekOfIs(a);
    WeekOfIs(b);
    IsoYears(WeekIndex(a), WeekOf(a), WeekIndex(b), WeekOf(b));
    IsoYears(WeekIndex(b), WeekOf(b), WeekIndex(a), WeekOf(a));
  }

  lemma {:induction false} WeekTextOrder(v: Week, w: Week)
    requires 1000 <= v.year < 10000 && 1000 <= w.year < 10000 && v.number < 100 && w.number < 100
    ensures Less(WeekText(v), WeekText(w)) <==> v.year < w.year || (v.year == w.year && v.number < w.number)
    ensures WeekText(v) == WeekText(w) <==> v == w
  {
    var y, z := Decimal(v.year), Decimal(w.year);
    var m, n := PadTwo(Decimal(v.number)), PadTwo(Decimal(w.number));
    assert y + "-W" + m == y + ("-W" + m) && z + "-W" + n == z + ("-W" + n);
    FourDigits(v.year);
    FourDigits(w.year);
    DecimalOrder(v.year, w.year);
    PadTwoOrder(v.number, w.number);
    FieldOrder(y, z, "-W" + m, "-W" + n);
    FieldOrder("-W", "-W", m, n);
    Trichotomy("-W", "-W");
    Trichotomy(y, z);
  }

  /** The last day of 9999 is a Friday, so no day up to it has a five-digit ISO year. */
  lemma {:induction false} WeekYear(n: nat)
    requires n <= LAST_DAY
    ensures 1970 <= WeekOf(n).year <= 9999
  {
    assert LAST_DAY == 2932896;
    assert ThursdayOf(n) == 7 * WeekIndex(n);
    KeyYear(ThursdayOf(n));
  }

  /**
   * Week keys for the years 1970 to 9999: two days share a key iff they are in one
   * Monday-to-Sunday week, and a later week has a greater key as a string.
   */
  lemma {:induction false} WeekKeyOrder(a: nat, b: nat)
    requires a <= LAST_DAY && b <= LAST_DAY
    ensures Less(IsoWeekKey(a), IsoWeekKey(b)) <==> WeekIndex(a) < WeekIndex(b)
    ensures IsoWeekKey(a) == IsoWeekKey(b) <==> WeekIndex(a) == WeekIndex(b)
  {
    WeekYear(a);
    WeekYear(b);
    WeekOfIs(a);
    WeekOfIs(b);
    WeeksIncrease(a, b);
    WeekTextOrder(WeekOf(a), WeekOf(b));
  }

  function NextIsoWeekStart(n: nat): nat {
    var day := Weekday(n);
    n + (if day == 0 then 1 else 8 - day)
  }

  lemma {:induction false} WeeksAscend(a: nat, b: nat)
    requires a <= b
    ensures WeekIndex(a) <= WeekIndex(b)
  {
  }

  lemma {:induction false} NextMonday(n: nat)
    ensures n < NextIsoWeekStart(n) && Weekday(NextIsoWeekStart(n)) == 1
    ensures WeekIndex(NextIsoWeekStart(n)) == WeekIndex(n) + 1
    ensures WeekIndex(NextIsoWeekStart(n) - 1) == WeekIndex(n)
  {
  }

  /** The displayed week reset is the first later day whose week key differs, and it is a Monday. */
  lemma {:induction false} WeekResetIsFirstChange(n: nat)
    requires NextIsoWeekStart(n) <= LAST_DAY
    ensures n < NextIsoWeekStart(n) && Weekday(NextIsoWeekStart(n)) == 1
    ensures Less(IsoWeekKey(n), IsoWeekKey(NextIsoWeekStart(n)))
    ensures forall m: nat :: n <= m < NextIsoWeekStart(n) ==> IsoWeekKey(m) == IsoWeekKey(n)
  {
    NextMonday(n);
    WeekKeyOrder(n, NextIsoWeekStart(n));
    forall m: nat | n <= m < NextIsoWeekStart(n)
      ensures IsoWeekKey(m) == IsoWeekKey(n)
    {
      WeeksAscend(n, m);
      WeeksAscend(m, NextIsoWeekStart(n) - 1);
      WeekKeyOrder(m, n);
    }
  }

  /** A date key never shows an earlier week than an earlier date key: the two kinds of key advance together. */
  lemma {:induction false} KeysAdvanceTogether(a: nat, b: nat)
    requires a <= LAST_DAY && b <= LAST_DAY
    requires AtMost(DateKey(a), DateKey(b))
    ensures AtMost(IsoWeekKey(a), IsoWeekKey(b))
  {
    DateKeyOrder(a, b);
    WeekKeyOrder(a, b);
  }
}
