/**
 * Proleptic Gregorian calendar dates as the backend's pandas and `datetime`
 * code uses them: day steps (`timedelta(days=1)`), the closed day range
 * `[start, start + (days - 1)]`, `"%Y-%m-%d"` keys and `"YYYY-MM"` periods.
 */
module Calendar {
  import opened Wrappers
  import opened Text

  datatype Date = Date(year: int, month: int, day: int)

  predicate IsLeapYear(y: int) {
    (y % 4 == 0 && y % 100 != 0) || y % 400 == 0
  }

  function DaysInMonth(y: int, m: int): (n: int)
    requires 1 <= m <= 12
    ensures 28 <= n <= 31
    ensures n == 29 <==> m == 2 && IsLeapYear(y)
  {
    if m == 2 then (if IsLeapYear(y) then 29 else 28)
    else if m == 4 || m == 6 || m == 9 || m == 11 then 30
    else 31
  }

  predicate Valid(d: Date) {
    1 <= d.month <= 12 && 1 <= d.day <= DaysInMonth(d.year, d.month)
  }

  /** A number that orders valid dates the way the calendar does. */
  function Ord(d: Date): int {
    d.year * 10000 + d.month * 100 + d.day
  }

  /** The following day: `d + timedelta(days=1)`. */
  function NextDay(d: Date): (r: Date)
    requires Valid(d)
    ensures Valid(r) && Ord(d) < Ord(r)
  {
    if d.day < DaysInMonth(d.year, d.month) then Date(d.year, d.month, d.day + 1)
    else if d.month < 12 then Date(d.year, d.month + 1, 1)
    else Date(d.year + 1, 1, 1)
  }

  /** `d + timedelta(days=n)` for a non-negative `n`. */
  function AddDays(d: Date, n: nat): (r: Date)
    requires Valid(d)
    ensures Valid(r)
    decreases n
  {
    if n == 0 then d else NextDay(AddDays(d, n - 1))
  }

  /** `Ord` tells valid dates apart. */
  lemma OrdInjective(a: Date, b: Date)
    requires Valid(a) && Valid(b) && Ord(a) == Ord(b)
    ensures a == b
  {
  }

  /** On valid dates `Ord` is the lexicographic order of (year, month, day). */
  lemma OrdLex(a: Date, b: Date)
    requires Valid(a) && Valid(b)
    ensures Ord(a) < Ord(b) <==>
      a.year < b.year || (a.year == b.year && (a.month < b.month || (a.month == b.month && a.day < b.day)))
  {
  }

  /** No valid date lies strictly between a date and the next one. */
  lemma NextDayImmediate(d: Date, e: Date)
    requires Valid(d) && Valid(e) && Ord(d) < Ord(e)
    ensures Ord(NextDay(d)) <= Ord(e)
  {
    OrdLex(d, e);
    var nd := NextDay(d);
    OrdLex(e, nd);
  }

  lemma {:induction false} AddDaysIncreasing(d: Date, m: nat, n: nat)
    requires Valid(d) && m < n
    ensures Ord(AddDays(d, m)) < Ord(AddDays(d, n))
    decreases n
  {
    if m < n - 1 {
      AddDaysIncreasing(d, m, n - 1);
    }
  }

  lemma AddDaysInjective(d: Date, m: nat, n: nat)
    requires Valid(d) && AddDays(d, m) == AddDays(d, n)
    ensures m == n
  {
    if m < n { AddDaysIncreasing(d, m, n); }
    if n < m { AddDaysIncreasing(d, n, m); }
  }

  /** The closed range `[start, start + (n - 1)]` of a day count `n >= 1`. */
  predicate InRange(start: Date, n: nat, e: Date)
    requires Valid(start) && n >= 1
  {
    Ord(start) <= Ord(e) <= Ord(AddDays(start, n - 1))
  }

  /**
   * A valid date lies in the closed range of `n` days from `start` exactly when
   * it is one of the `n` day steps from `start`.
   */
  lemma InRangeIff(start: Date, n: nat, e: Date)
    requires Valid(start) && Valid(e) && n >= 1
    ensures InRange(start, n, e) <==> exists k :: 0 <= k < n && AddDays(start, k) == e
  {
    if InRange(start, n, e) {
      var k := RangeStep(start, n, e);
    }
    if exists k :: 0 <= k < n && AddDays(start, k) == e {
      var k :| 0 <= k < n && AddDays(start, k) == e;
      StepInRange(start, n, k);
    }
  }

  /** The day step from `start` that lands on a date of the range. */
  lemma {:induction false} RangeStep(start: Date, n: nat, e: Date) returns (k: nat)
    requires Valid(start) && Valid(e) && n >= 1 && InRange(start, n, e)
    ensures k < n && AddDays(start, k) == e
    decreases n
  {
    if n == 1 {
      OrdInjective(start, e);
      k := 0;
    } else if Ord(e) <= Ord(AddDays(start, n - 2)) {
      k := RangeStep(start, n - 1, e);
    } else {
      NextDayImmediate(AddDays(start, n - 2), e);
      OrdInjective(AddDays(start, n - 1), e);
      k := n - 1;
    }
  }

  lemma StepInRange(start: Date, n: nat, k: nat)
    requires Valid(start) && k < n
    ensures InRange(start, n, AddDays(start, k))
  {
    if k < n - 1 {
      AddDaysIncreasing(start, k, n - 1);
    }
    if k > 0 {
      AddDaysIncreasing(start, 0, k);
    }
  }

  /** The month offsets of Sakamoto's day-of-the-week formula. */
  function MonthOffset(m: int): int
    requires 1 <= m <= 12
  {
    match m
    case 1 => 0 case 2 => 3 case 3 => 2 case 4 => 5 case 5 => 0 case 6 => 3
    case 7 => 5 case 8 => 1 case 9 => 4 case 10 => 6 case 11 => 2 case _ => 4
  }

  /** Leap days up to and including year `y`, plus `y`: the year part of the formula. */
  function YearBase(y: int): int {
    y + y / 4 - y / 100 + y / 400
  }

  /** A day count whose remainder modulo 7 is the day of the week (January and February count with the year before). */
  function DayNumber(d: Date): int
    requires Valid(d)
  {
    var y := if d.month < 3 then d.year - 1 else d.year;
    YearBase(y) + MonthOffset(d.month) + d.day + 6
  }

  /** The day of the week of a valid date, Monday 0 to Sunday 6, as pandas' `dayofweek` and `weekday()` count. */
  function DayOfWeek(d: Date): (w: int)
    requires Valid(d)
    ensures 0 <= w < 7
  {
    DayNumber(d) % 7
  }

  /** Fixed points of the formula: 1 January 2024 was a Monday, 1 March 2025 a Saturday. */
  lemma DayOfWeekSamples()
    ensures DayOfWeek(Date(2024, 1, 1)) == 0
    ensures DayOfWeek(Date(2025, 3, 1)) == 5
  {
  }

  /** The day after is the next day of the week. */
  lemma NextWeekday(d: Date)
    requires Valid(d)
    ensures DayOfWeek(NextDay(d)) == (DayOfWeek(d) + 1) % 7
  {
    NextDayNumber(d);
    ModStep(DayNumber(d), DayNumber(NextDay(d)));
  }

  lemma ModStep(a: int, b: int)
    requires (b - a - 1) % 7 == 0
    ensures b % 7 == (a % 7 + 1) % 7
  {
  }

  lemma WeekdayStep(w0: int, prev: int, next: int, n: nat)
    requires n > 0 && prev == (w0 + (n - 1)) % 7 && next == (prev + 1) % 7
    ensures next == (w0 + n) % 7
  {
  }

  /** `n` days on, the day of the week has advanced by `n` modulo 7. */
  lemma {:induction false} AddDaysWeekday(d: Date, n: nat)
    requires Valid(d)
    ensures DayOfWeek(AddDays(d, n)) == (DayOfWeek(d) + n) % 7
    decreases n
  {
    var w0 := DayOfWeek(d);
    if n == 0 {
      WeekdayStay(w0);
    } else {
      var prev := AddDays(d, n - 1);
      var next := AddDays(d, n);
      assert next == NextDay(prev);
      AddDaysWeekday(d, n - 1);
      NextWeekday(prev);
      WeekdayStep(w0, DayOfWeek(prev), DayOfWeek(next), n);
    }
  }

  lemma WeekdayStay(w: int)
    requires 0 <= w < 7
    ensures (w + 0) % 7 == w
  {
  }

  lemma NextDayNumber(d: Date)
    requires Valid(d)
    ensures (DayNumber(NextDay(d)) - DayNumber(d) - 1) % 7 == 0
  {
    var next := NextDay(d);
    if d.day < DaysInMonth(d.year, d.month) {
      assert DayNumber(next) == DayNumber(d) + 1;
    } else if d.month == 2 {
      assert next == Date(d.year, 3, 1);
      YearStep(d.year - 1);
      assert DayNumber(next) - DayNumber(d) - 1 == -28;
    } else if d.month < 12 {
      assert next == Date(d.year, d.month + 1, 1);
      MonthTurn(d.year, d.month);
    } else {
      assert next == Date(d.year + 1, 1, 1);
      assert DayNumber(next) - DayNumber(d) - 1 == -35;
    }
  }

  /** Within a year, a month's offset and length lead to the next month's offset, modulo 7. */
  lemma MonthTurn(y: int, m: int)
    requires 1 <= m < 12 && m != 2
    ensures (MonthOffset(m + 1) - MonthOffset(m) - DaysInMonth(y, m)) % 7 == 0
  {
  }

  lemma YearStep(y: int)
    ensures YearBase(y + 1) - YearBase(y) == if IsLeapYear(y + 1) then 2 else 1
  {
    DivStep(y, 4);
    DivStep(y, 100);
    DivStep(y, 400);
  }

  /** Floor division by `k` steps up by one exactly where the next number is a multiple of `k`. */
  lemma DivStep(y: int, k: int)
    requires k > 0
    ensures (y + 1) / k - y / k == if (y + 1) % k == 0 then 1 else 0
  {
    var q, r := y / k, y % k;
    assert y == q * k + r;
    if r == k - 1 {
      assert y + 1 == (q + 1) * k;
      DivUnique(y + 1, k, q + 1, 0);
    } else {
      DivUnique(y + 1, k, q, r + 1);
    }
  }

  lemma DivUnique(a: int, k: int, q: int, r: int)
    requires k > 0 && 0 <= r < k && a == q * k + r
    ensures a / k == q
  {
    var q', r' := a / k, a % k;
    assert q' * k + r' == q * k + r;
    if q' < q {
      assert (q - q') * k == r' - r;
      MulAtLeast(q - q', k);
    } else if q' > q {
      assert (q' - q) * k == r - r';
      MulAtLeast(q' - q, k);
    }
  }

  lemma MulAtLeast(m: int, k: int)
    requires m >= 1 && k > 0
    ensures m * k >= k
  {
    assert m * k == (m - 1) * k + k;
  }

  /** `(month - 1) // 3 + 1`. */
  function Quarter(month: int): (q: int)
    requires 1 <= month <= 12
    ensures 1 <= q <= 4
    ensures (q - 1) * 3 < month <= q * 3
  {
    (month - 1) / 3 + 1
  }

  /** A natural number in decimal, left-padded with zeros to `width` digits. */
  function Pad(n: nat, width: nat): (s: string)
    ensures |s| == if |NatToString(n)| < width then width else |NatToString(n)|
    ensures AllDigits(s)
  {
    var t := NatToString(n);
    if |t| < width then seq(width - |t|, _ => '0') + t else t
  }

  /** The `"%Y-%m-%d"` key of a date of years 1 to 9999. */
  function DateKey(d: Date): (s: string)
    requires Valid(d) && 1 <= d.year <= 9999
    ensures |s| == 10 && s[4] == '-' && s[7] == '-'
  {
    PadLemma(d.year, 4);
    PadLemma(d.month, 2);
    PadLemma(d.day, 2);
    Pad(d.year, 4) + "-" + Pad(d.month, 2) + "-" + Pad(d.day, 2)
  }

  /** The `"YYYY-MM"` text of a date's monthly period. */
  function MonthKey(d: Date): (s: string)
    requires Valid(d) && 1 <= d.year <= 9999
    ensures |s| == 7 && s == DateKey(d)[..7]
  {
    PadLemma(d.year, 4);
    PadLemma(d.month, 2);
    Pad(d.year, 4) + "-" + Pad(d.month, 2)
  }

  lemma PadLemma(n: nat, width: nat)
    requires width >= 1 && n < Power10(width)
    ensures |Pad(n, width)| == width
    ensures DigitsValue(Pad(n, width)) == n
  {
    var t := NatToString(n);
    NatLength(n, width);
    NatRoundTrip(n);
    if |t| < width {
      LeadingZeros(width - |t|, t);
    }
  }

  function Power10(k: nat): (p: nat)
    ensures p >= 1
  {
    if k == 0 then 1 else 10 * Power10(k - 1)
  }

  lemma {:induction false} NatLength(n: nat, width: nat)
    requires n < Power10(width)
    ensures |NatToString(n)| <= width || (n == 0 && width == 0)
    decreases n
  {
    if n >= 10 {
      assert width >= 1;
      assert n / 10 < Power10(width - 1);
      NatLength(n / 10, width - 1);
    }
  }

  lemma {:induction false} LeadingZeros(k: nat, t: string)
    requires AllDigits(t)
    ensures AllDigits(seq(k, _ => '0') + t)
    ensures DigitsValue(seq(k, _ => '0') + t) == DigitsValue(t)
    decreases |t|
  {
    var z := seq(k, _ => '0');
    if |t| == 0 {
      assert z + t == z;
      ZerosValue(k);
    } else {
      var u := z + t;
      assert u[..|u| - 1] == z + t[..|t| - 1];
      LeadingZeros(k, t[..|t| - 1]);
    }
  }

  lemma {:induction false} ZerosValue(k: nat)
    ensures AllDigits(seq(k, _ => '0'))
    ensures DigitsValue(seq(k, _ => '0')) == 0
    decreases k
  {
    if k > 0 {
      var z := seq(k, _ => '0');
      assert z[..k - 1] == seq(k - 1, _ => '0');
      ZerosValue(k - 1);
    }
  }

  /**
   * The strict `"YYYY-MM-DD"` reading of a date: four, two and two decimal
   * digits naming a valid date.
   */
  function ParseDateKey(s: string): (r: Option<Date>)
    ensures r.Some? ==> Valid(r.value) && 1 <= r.value.year <= 9999
  {
    if |s| == 10 && s[4] == '-' && s[7] == '-'
       && AllDigits(s[..4]) && AllDigits(s[5..7]) && AllDigits(s[8..])
    then
      var d := Date(DigitsValue(s[..4]), DigitsValue(s[5..7]), DigitsValue(s[8..]));
      if Valid(d) && 1 <= d.year <= 9999 then Some(d) else None
    else None
  }

  lemma DateKeyRoundTrip(d: Date)
    requires Valid(d) && 1 <= d.year <= 9999
    ensures ParseDateKey(DateKey(d)) == Some(d)
  {
    PadLemma(d.year, 4);
    PadLemma(d.month, 2);
    PadLemma(d.day, 2);
    var s := DateKey(d);
    assert s[..4] == Pad(d.year, 4);
    assert s[5..7] == Pad(d.month, 2);
    assert s[8..] == Pad(d.day, 2);
  }

  /** Distinct valid dates have distinct keys. */
  lemma DateKeyInjective(a: Date, b: Date)
    requires Valid(a) && 1 <= a.year <= 9999 && Valid(b) && 1 <= b.year <= 9999
    requires DateKey(a) == DateKey(b)
    ensures a == b
  {
    DateKeyRoundTrip(a);
    DateKeyRoundTrip(b);
  }
}
