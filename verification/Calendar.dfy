/**
  The civil calendar of qingyi/util/date_.cc and date_.h: conversions between
  (year, month, day) in the proleptic Gregorian calendar and Julian day numbers.

  The conversions are written as the source writes them, with the division of
  the source's language, which truncates towards zero.  The reference they are
  compared with is the calendar itself: leap years, month lengths and a
  successor function on dates.
*/
module Calendar {

  datatype YearMonthDay = YearMonthDay(year: int, month: int, day: int)

  // ---------- The two conversions ----------

  /** Integer division that truncates towards zero, for a positive divisor. */
  function Quotient(a: int, b: int): int
    requires b > 0
  {
    if a >= 0 then a / b else -((-a) / b)
  }

  /** The remainder that goes with Quotient; it has the sign of the dividend. */
  function Remainder(a: int, b: int): int
    requires b > 0
  {
    a - Quotient(a, b) * b
  }

  /** The remainder is smaller than the divisor, and on the same side of zero as the dividend. */
  lemma QuotientTruncates(a: int, b: int)
    requires b > 0
    ensures a == Quotient(a, b) * b + Remainder(a, b)
    ensures if a >= 0 then 0 <= Remainder(a, b) < b else -b < Remainder(a, b) <= 0
  {
    if a < 0 {
      assert -a == b * (-a / b) + -a % b;
      assert Quotient(a, b) * b == -(b * (-a / b));
    } else {
      assert a == b * (a / b) + a % b;
    }
  }

  function GetJulianDayNumber(year: int, month: int, day: int): int {
    var a := Quotient(14 - month, 12);
    var y := year + 4800 - a;
    var m := month + 12 * a - 3;
    day + Quotient(153 * m + 2, 5) + y * 365 + Quotient(y, 4) - Quotient(y, 100) + Quotient(y, 400) - 32045
  }

  function GetYearMonthDay(julianDayNumber: int): YearMonthDay {
    var a := julianDayNumber + 32044;
    var b := Quotient(4 * a + 3, 146097);
    var c := a - Quotient(b * 146097, 4);
    var d := Quotient(4 * c + 3, 1461);
    var e := c - Quotient(1461 * d, 4);
    var m := Quotient(5 * e + 2, 153);
    YearMonthDay(b * 100 + d - 4800 + Quotient(m, 10),
                 m + 3 - 12 * Quotient(m, 10),
                 e - Quotient(153 * m + 2, 5) + 1)
  }

  function Julian(date: YearMonthDay): int {
    GetJulianDayNumber(date.year, date.month, date.day)
  }

  /** Sunday is 0, Saturday is 6. */
  function WeekDay(julianDayNumber: int): int {
    Remainder(julianDayNumber + 1, 7)
  }

  // ---------- The reference calendar ----------

  predicate IsLeapYear(year: int) {
    year % 4 == 0 && (year % 100 != 0 || year % 400 == 0)
  }

  function DaysOfMonth(year: int, month: int): int {
    if month == 2 then (if IsLeapYear(year) then 29 else 28)
    else if month == 4 || month == 6 || month == 9 || month == 11 then 30
    else 31
  }

  predicate Valid(date: YearMonthDay) {
    1 <= date.month <= 12 && 1 <= date.day <= DaysOfMonth(date.year, date.month)
  }

  /** Calendar order: lexicographic on year, month and day. */
  predicate Before(x: YearMonthDay, y: YearMonthDay) {
    x.year < y.year
    || (x.year == y.year && (x.month < y.month || (x.month == y.month && x.day < y.day)))
  }

  const EPOCH := YearMonthDay(-4800, 3, 1)
  const EPOCH_JULIAN := -32044

  predicate FromEpoch(date: YearMonthDay) {
    !Before(date, EPOCH)
  }

  function NextDay(date: YearMonthDay): YearMonthDay {
    if date.day < DaysOfMonth(date.year, date.month) then date.(day := date.day + 1)
    else if date.month < 12 then YearMonthDay(date.year, date.month + 1, 1)
    else YearMonthDay(date.year + 1, 1, 1)
  }

  function Advance(date: YearMonthDay, n: nat): YearMonthDay {
    if n == 0 then date else NextDay(Advance(date, n - 1))
  }

  // ---------- Decoding a year that starts in March ----------

  /** A date counted in years from the epoch, the year starting on the first of March. */
  function Shifted(y: int, m: int, day: int): YearMonthDay {
    YearMonthDay(y - 4800 + m / 10, m + 3 - 12 * (m / 10), day)
  }

  /** Days from the epoch to the first of March of shifted year y. */
  function YearStart(y: int): int {
    365 * y + y / 4 - y / 100 + y / 400
  }

  /** Days from the first of March to the first of the shifted month m. */
  function MonthStart(m: int): int {
    (153 * m + 2) / 5
  }

  /** The shifted month that contains day e of a shifted year. */
  function MonthIndex(e: nat): nat {
    (5 * e + 2) / 153
  }

  lemma LeapOfShifted(y: int)
    ensures YearStart(y + 1) - YearStart(y) == if IsLeapYear(y + 1 - 4800) then 366 else 365
  {
    var z := y + 1;
    LeapYearPeriod(z);
    assert z / 4 - y / 4 == if z % 4 == 0 then 1 else 0;
    assert z / 100 - y / 100 == if z % 100 == 0 then 1 else 0;
    assert z / 400 - y / 400 == if z % 400 == 0 then 1 else 0;
    MultiplesOf400(z);
  }

  lemma MultiplesOf400(y: int)
    ensures y % 400 == 0 ==> y % 100 == 0
    ensures y % 100 == 0 ==> y % 4 == 0
  {
  }

  lemma LeapYearPeriod(y: int)
    ensures IsLeapYear(y) == IsLeapYear(y - 4800) == IsLeapYear(-y)
  {
    assert y - 4800 == y - 4 * 1200 == y - 100 * 48 == y - 400 * 12;
    Remainders(y, 4, 1200);
    Remainders(y, 100, 48);
    Remainders(y, 400, 12);
  }

  lemma Remainders(y: int, k: int, n: int)
    requires k > 0
    ensures (y - k * n) % k == y % k
    ensures (-y) % k == 0 <==> y % k == 0
  {
    var q, r := y / k, y % k;
    RemainderIs(y - k * n, k, q - n, r);
    if r == 0 {
      RemainderIs(-y, k, -q, 0);
    } else {
      RemainderIs(-y, k, -q - 1, k - r);
    }
  }

  lemma RemainderIs(a: int, k: int, q: int, r: int)
    requires 0 <= r < k && a == k * q + r
    ensures a % k == r
  {
    var d := a / k - q;
    MultipleIsFar(k, d);
    assert k * d == r - a % k;
  }

  lemma MultipleIsFar(k: int, d: int)
    requires k > 0
    ensures d > 0 ==> k * d >= k
    ensures d < 0 ==> k * d <= -k
  {
  }

  lemma MonthLength(y: int, m: int)
    requires 0 <= m <= 10
    ensures MonthStart(m + 1) - MonthStart(m) == DaysOfMonth(Shifted(y, m, 1).year, Shifted(y, m, 1).month)
  {
  }

  /** The steps of GetYearMonthDay find the shifted year that contains day a, and the day in it. */
  lemma YearOfDay(a: nat) returns (b: nat, c: nat, d: nat, e: nat)
    ensures b == (4 * a + 3) / 146097 && c == a - b * 146097 / 4
    ensures d == (4 * c + 3) / 1461 && e == c - 1461 * d / 4
    ensures YearStart(100 * b + d) + e == a < YearStart(100 * b + d + 1)
  {
    b := (4 * a + 3) / 146097;
    c := a - b * 146097 / 4;
    assert 0 <= c <= 36524;
    d := (4 * c + 3) / 1461;
    e := c - 1461 * d / 4;
    CenturySplit(b, d);
    if d < 99 {
      CenturySplit(b, d + 1);
    } else {
      CenturySplit(b + 1, 0);
    }
  }

  lemma CenturySplit(b: nat, d: nat)
    requires d < 100
    ensures YearStart(100 * b + d) == b * 146097 / 4 + 1461 * d / 4
  {
    assert (100 * b + d) / 4 == 25 * b + d / 4;
    assert (100 * b + d) / 100 == b;
    assert (100 * b + d) / 400 == b / 4;
  }

  /** The last step of GetYearMonthDay finds the month that contains day e of a shifted year. */
  lemma MonthOfDay(e: nat)
    requires e < 366
    ensures var m := MonthIndex(e);
            0 <= m <= 11 && MonthStart(m) <= e < MonthStart(m + 1)
  {
  }

  lemma YearStartMonotone(y: nat, z: nat)
    requires y < z
    ensures YearStart(y) + 365 <= YearStart(y + 1) <= YearStart(z)
    decreases z - y
  {
    LeapOfShifted(y);
    if y + 1 < z {
      YearStartMonotone(y + 1, z);
    }
  }

  /** What GetJulianDayNumber counts for the shifted years before y; before the epoch it is not YearStart. */
  function TruncatedYearStart(y: int): (r: int)
    ensures y >= 0 ==> r == YearStart(y)
    ensures y < 0 ==> r == -YearStart(-y)
  {
    365 * y + Quotient(y, 4) - Quotient(y, 100) + Quotient(y, 400)
  }

  lemma JulianOfShifted(y: int, m: int, day: int)
    requires 0 <= m <= 11
    ensures Julian(Shifted(y, m, day)) == TruncatedYearStart(y) + MonthStart(m) + day - 32045
  {
  }

  // ---------- Day numbers to dates ----------

  /** A day of a shifted year, cut at the start of its month, is a date of the calendar. */
  lemma DayOfMonthIsValid(y: int, e: nat)
    requires e < YearStart(y + 1) - YearStart(y)
    ensures var m := MonthIndex(e);
            0 <= m <= 11 && Valid(Shifted(y, m, e - MonthStart(m) + 1))
  {
    LeapOfShifted(y);
    MonthOfDay(e);
    var m := MonthIndex(e);
    if m <= 10 {
      MonthLength(y, m);
    }
  }

  /** From the epoch on every division of GetYearMonthDay is of a non-negative number. */
  lemma YearMonthDaySteps(a: nat, b: nat, c: nat, d: nat, e: nat)
    requires b == (4 * a + 3) / 146097 && c == a - b * 146097 / 4
    requires d == (4 * c + 3) / 1461 && e == c - 1461 * d / 4
    ensures GetYearMonthDay(a - 32044) == Shifted(100 * b + d, MonthIndex(e), e - MonthStart(MonthIndex(e)) + 1)
  {
    assert Quotient(4 * a + 3, 146097) == b;
    assert Quotient(b * 146097, 4) == b * 146097 / 4;
    assert Quotient(4 * c + 3, 1461) == d;
    assert Quotient(1461 * d, 4) == 1461 * d / 4;
    assert Quotient(5 * e + 2, 153) == MonthIndex(e);
  }

  /** For a day number from the epoch on, GetYearMonthDay finds the shifted year and cuts the day in it. */
  lemma YearAndDay(a: nat) returns (y: nat, e: nat)
    ensures YearStart(y) + e == a < YearStart(y + 1)
    ensures GetYearMonthDay(a - 32044) == Shifted(y, MonthIndex(e), e - MonthStart(MonthIndex(e)) + 1)
  {
    hide *;
    var b, c, d;
    b, c, d, e := YearOfDay(a);
    y := 100 * b + d;
    YearMonthDaySteps(a, b, c, d, e);
  }

  lemma SplitDay(j: int) returns (y: nat, m: nat, day: int)
    requires j >= EPOCH_JULIAN
    ensures m <= 11 && GetYearMonthDay(j) == Shifted(y, m, day) && Valid(Shifted(y, m, day))
    ensures j == YearStart(y) + MonthStart(m) + day - 32045
  {
    assert j + 32044 >= 0;
    hide *;
    var e;
    y, e := YearAndDay(j + 32044);
    m, day := MonthIndex(e), e - MonthStart(MonthIndex(e)) + 1;
    DayOfMonthIsValid(y, e);
  }

  /** Below the epoch the truncating divisions overshoot: the day of month comes out as 0 or less. */
  lemma DayBelowEpoch(j: int)
    requires j < EPOCH_JULIAN
    ensures GetYearMonthDay(j).day <= 0
  {
    var n := -(j + 32044);
    var b := (4 * n - 3) / 146097;
    var c := n - b * 146097 / 4;
    assert c >= 1;
    var d := (4 * c - 3) / 1461;
    var e := c - 1461 * d / 4;
    assert e >= 1;
    var m := (5 * e - 2) / 153;
    hide Quotient;
    QuotientBelow(4 * n - 3, 146097);
    QuotientBelow(b * 146097, 4);
    QuotientBelow(4 * c - 3, 1461);
    QuotientBelow(1461 * d, 4);
    QuotientBelow(5 * e - 2, 153);
    LastDayBelow(e, m);
  }

  lemma QuotientBelow(a: int, b: int)
    requires a >= 0 && b > 0
    ensures Quotient(-a, b) == -(a / b)
  {
  }

  lemma LastDayBelow(e: int, m: int)
    requires e >= 1 && m == (5 * e - 2) / 153
    ensures -e - Quotient(153 * -m + 2, 5) + 1 <= 0
  {
  }

  /** GetYearMonthDay gives a date of the calendar exactly from the epoch on. */
  lemma YearMonthDayIsValid(j: int)
    ensures Valid(GetYearMonthDay(j)) <==> j >= EPOCH_JULIAN
    ensures j >= EPOCH_JULIAN ==> FromEpoch(GetYearMonthDay(j))
  {
    if j >= EPOCH_JULIAN {
      var y, m, day := SplitDay(j);
    } else {
      DayBelowEpoch(j);
    }
  }

  /** Day number to date and back is the identity from the epoch on. */
  lemma JulianRoundTrip(j: int)
    requires j >= EPOCH_JULIAN
    ensures Julian(GetYearMonthDay(j)) == j
  {
    var y, m, day := SplitDay(j);
    JulianOfShifted(y, m, day);
  }

  // ---------- Dates to day numbers ----------

  /** Every date of the calendar is a shifted one. */
  lemma ShiftDate(date: YearMonthDay) returns (y: int, m: nat)
    requires Valid(date)
    ensures m <= 11 && date == Shifted(y, m, date.day)
    ensures FromEpoch(date) <==> y >= 0
  {
    if date.month >= 3 {
      y, m := date.year + 4800, date.month - 3;
    } else {
      y, m := date.year + 4799, date.month + 9;
    }
  }

  lemma DayInYear(y: int, m: nat, day: int)
    requires m <= 11 && Valid(Shifted(y, m, day))
    ensures MonthStart(m) <= MonthStart(m) + day - 1 < YearStart(y + 1) - YearStart(y)
    ensures m < 11 ==> MonthStart(m) + day - 1 < MonthStart(m + 1)
  {
    LeapOfShifted(y);
    if m <= 10 {
      MonthLength(y, m);
    }
  }

  /** No two dates from the epoch on share a day number. */
  lemma ShiftedIsInjective(y: nat, m: nat, day: int, y': nat, m': nat, day': int)
    requires m <= 11 && Valid(Shifted(y, m, day)) && m' <= 11 && Valid(Shifted(y', m', day'))
    requires YearStart(y) + MonthStart(m) + day == YearStart(y') + MonthStart(m') + day'
    ensures y == y' && m == m' && day == day'
  {
    DayInYear(y, m, day);
    DayInYear(y', m', day');
    if y < y' {
      YearStartMonotone(y, y');
    } else if y' < y {
      YearStartMonotone(y', y);
    }
  }

  /**
    The round trip of the conversions: a date of the calendar comes back from its
    day number exactly when it is not before the first of March of the year -4800.
  */
  lemma DateRoundTrip(date: YearMonthDay)
    requires Valid(date)
    ensures GetYearMonthDay(Julian(date)) == date <==> FromEpoch(date)
  {
    var j := Julian(date);
    YearMonthDayIsValid(j);
    if FromEpoch(date) {
      var y, m := ShiftDate(date);
      JulianOfShifted(y, m, date.day);
      DayInYear(y, m, date.day);
      YearStartNonNegative(y);
      var y', m', day' := SplitDay(j);
      ShiftedIsInjective(y, m, date.day, y', m', day');
    }
  }

  lemma YearStartNonNegative(y: nat)
    ensures YearStart(y) >= 0
  {
    if y > 0 {
      YearStartMonotone(0, y);
    }
  }

  // ---------- Counting days ----------

  lemma TruncatedYearLength(y: int)
    ensures TruncatedYearStart(y + 1) - TruncatedYearStart(y)
            == if y >= 0 then (if IsLeapYear(y + 1) then 366 else 365) else (if IsLeapYear(y) then 366 else 365)
  {
    if y >= 0 {
      LeapOfShifted(y);
      LeapYearPeriod(y + 1);
    } else {
      LeapOfShifted(-y - 1);
      LeapYearPeriod(-y);
      LeapYearPeriod(y);
    }
  }

  /** The last day of February of a year up to -4800 that is, or follows, a leap year. */
  predicate AtBrokenLeapDay(date: YearMonthDay) {
    date.year <= -4800 && date.month == 2 && date.day == DaysOfMonth(date.year, 2)
    && (IsLeapYear(date.year) || IsLeapYear(date.year - 1))
  }

  /**
    The next calendar day has the next day number, leap rules included, for
    exactly the dates that are not at a broken leap day.  From the epoch on
    there is none; before it, truncation puts the leap days in the wrong year.
  */
  lemma NextDayCounts(date: YearMonthDay)
    requires Valid(date)
    ensures Julian(NextDay(date)) == Julian(date) + 1 <==> !AtBrokenLeapDay(date)
  {
    hide Julian, YearStart;
    var y, m := ShiftDate(date);
    if date.day < DaysOfMonth(date.year, date.month) {
      WithinMonth(date);
    } else if m < 11 {
      MonthEndCounts(y, m, date.day);
    } else {
      LeapDayCounts(y, date.day);
    }
  }

  lemma WithinMonth(date: YearMonthDay)
    ensures Julian(date.(day := date.day + 1)) == Julian(date) + 1
  {
  }

  lemma MonthEndCounts(y: int, m: nat, day: int)
    requires m < 11 && day == DaysOfMonth(Shifted(y, m, 1).year, Shifted(y, m, 1).month)
    ensures NextDay(Shifted(y, m, day)) == Shifted(y, m + 1, 1)
    ensures Julian(Shifted(y, m + 1, 1)) == Julian(Shifted(y, m, day)) + 1
  {
    hide *;
    NextMonth(y, m, day);
    MonthLength(y, m);
    JulianOfShifted(y, m, day);
    JulianOfShifted(y, m + 1, 1);
  }

  lemma NextMonth(y: int, m: nat, day: int)
    requires m < 11 && day == DaysOfMonth(Shifted(y, m, 1).year, Shifted(y, m, 1).month)
    ensures NextDay(Shifted(y, m, day)) == Shifted(y, m + 1, 1)
  {
    hide IsLeapYear;
  }

  lemma LeapDayCounts(y: int, day: int)
    requires day == DaysOfMonth(y - 4799, 2)
    ensures Shifted(y, 11, day) == YearMonthDay(y - 4799, 2, day)
    ensures Shifted(y + 1, 0, 1) == YearMonthDay(y - 4799, 3, 1)
    ensures Julian(Shifted(y + 1, 0, 1)) == Julian(Shifted(y, 11, day)) + 1
            <==> y >= 0 || (!IsLeapYear(y - 4799) && !IsLeapYear(y - 4800))
  {
    assert MonthStart(11) == 337 && MonthStart(0) == 0;
    hide Julian, MonthStart, TruncatedYearStart, IsLeapYear;
    JulianOfShifted(y, 11, day);
    JulianOfShifted(y + 1, 0, 1);
    TruncatedYearLength(y);
    LeapYearPeriod(y + 1);
    LeapYearPeriod(y);
    NoTwoLeapYears(y - 4800);
  }

  lemma NoTwoLeapYears(y: int)
    ensures !(IsLeapYear(y) && IsLeapYear(y + 1))
  {
  }

  /** In the year -4800, on the day before the epoch, the day number does not move. */
  lemma DayBeforeEpochDoesNotCount()
    ensures Julian(NextDay(YearMonthDay(-4800, 2, 29))) == Julian(YearMonthDay(-4800, 2, 29))
  {
  }

  lemma NextDayStaysValid(date: YearMonthDay)
    requires Valid(date)
    ensures Valid(NextDay(date)) && Before(date, NextDay(date))
  {
  }

  /**
    Walking the calendar n days from any date of the epoch reaches the date of
    the n-th following day number.
  */
  lemma {:induction false} AdvanceCounts(date: YearMonthDay, n: nat)
    requires Valid(date) && FromEpoch(date)
    ensures Valid(Advance(date, n)) && FromEpoch(Advance(date, n))
    ensures Julian(Advance(date, n)) == Julian(date) + n
    ensures GetYearMonthDay(Julian(date) + n) == Advance(date, n)
  {
    hide Julian, GetYearMonthDay;
    if n > 0 {
      AdvanceCounts(date, n - 1);
      NextDayStaysValid(Advance(date, n - 1));
      NextDayCounts(Advance(date, n - 1));
    }
    DateRoundTrip(Advance(date, n));
  }

  /** The leap days before the epoch share their day numbers with the days after them. */
  predicate Doubled(date: YearMonthDay) {
    date.year <= -4800 && IsLeapYear(date.year) && date.month == 2 && date.day == 29
  }

  lemma {:induction false} YearsAdd(y: int, y': int)
    requires y < y'
    ensures TruncatedYearStart(y') >= TruncatedYearStart(y + 1) + 365 * (y' - y - 1)
    decreases y' - y
  {
    hide *;
    if y + 1 < y' {
      YearsAdd(y, y' - 1);
      TruncatedYearLength(y' - 1);
    }
  }

  /** Calendar order is the order of shifted years, months and days. */
  lemma ShiftedOrder(y: int, m: nat, day: int, y': int, m': nat, day': int)
    requires m <= 11 && m' <= 11 && Before(Shifted(y, m, day), Shifted(y', m', day'))
    ensures y < y' || (y == y' && (m < m' || (m == m' && day < day')))
  {
  }

  lemma {:induction false} MonthsAdd(y: int, m: nat, day: int, m': nat)
    requires m < m' <= 11 && Valid(Shifted(y, m, day))
    ensures MonthStart(m) + day <= MonthStart(m')
    decreases m'
  {
    DayInYear(y, m, day);
    if m + 1 < m' {
      MonthsAdd(y, m, day, m' - 1);
    }
  }

  /** A later date has a larger day number, but for the day after a doubled one. */
  lemma LaterDayNumber(x: YearMonthDay, z: YearMonthDay)
    requires Valid(x) && Valid(z) && Before(x, z)
    ensures Julian(x) <= Julian(z)
    ensures Julian(x) == Julian(z) <==> Doubled(x) && z == NextDay(x)
  {
    var y, m := ShiftDate(x);
    var y', m' := ShiftDate(z);
    ShiftedOrder(y, m, x.day, y', m', z.day);
    if y < y' {
      LaterYear(y, m, x.day, y', m', z.day);
    } else {
      SameYear(y, m, x.day, m', z.day);
    }
  }

  lemma SameYear(y: int, m: nat, day: int, m': nat, day': int)
    requires m <= m' <= 11 && (m < m' || day < day') && Valid(Shifted(y, m, day)) && Valid(Shifted(y, m', day'))
    ensures Julian(Shifted(y, m, day)) < Julian(Shifted(y, m', day'))
    ensures !(Doubled(Shifted(y, m, day)) && Shifted(y, m', day') == NextDay(Shifted(y, m, day)))
  {
    hide *;
    JulianOfShifted(y, m, day);
    JulianOfShifted(y, m', day');
    if m < m' {
      DayIsPositive(y, m', day');
      MonthsAdd(y, m, day, m');
    }
    LastDayOfYear(y, m, day);
    JulianOfShifted(y + 1, 0, 1);
    MonthsStartAtZero();
  }

  lemma DayIsPositive(y: int, m: int, day: int)
    requires Valid(Shifted(y, m, day))
    ensures day > 0
  {
  }

  lemma MonthsStartAtZero()
    ensures MonthStart(0) == 0
  {
  }

  lemma LaterYear(y: int, m: nat, day: int, y': int, m': nat, day': int)
    requires y < y' && m <= 11 && m' <= 11 && Valid(Shifted(y, m, day)) && Valid(Shifted(y', m', day'))
    ensures var x, z := Shifted(y, m, day), Shifted(y', m', day');
            Julian(x) <= Julian(z) && (Julian(x) == Julian(z) <==> Doubled(x) && z == NextDay(x))
  {
    hide Julian, TruncatedYearStart, MonthStart, YearStart, NextDay, Doubled;
    var e, e' := MonthStart(m) + day - 1, MonthStart(m') + day' - 1;
    JulianOfShifted(y, m, day);
    JulianOfShifted(y', m', day');
    YearsAdd(y, y');
    LastDayOfYear(y, m, day);
    DayInYear(y', m', day');
    FirstDayOfYear(y', m', day');
  }

  /** The days of a shifted year fit into its day numbers, but for a doubled one. */
  lemma LastDayOfYear(y: int, m: nat, day: int)
    requires m <= 11 && Valid(Shifted(y, m, day))
    ensures var rest := TruncatedYearStart(y + 1) - TruncatedYearStart(y) - (MonthStart(m) + day - 1);
            if Doubled(Shifted(y, m, day)) then rest == 0 && NextDay(Shifted(y, m, day)) == Shifted(y + 1, 0, 1)
            else rest > 0
  {
    TruncatedYearLength(y);
    hide TruncatedYearStart;
    DayInYear(y, m, day);
    LeapOfShifted(y);
    LeapYearPeriod(y + 1);
    LeapYearPeriod(y);
    NoTwoLeapYears(y);
  }

  lemma FirstDayOfYear(y: int, m: nat, day: int)
    requires m <= 11 && Valid(Shifted(y, m, day))
    ensures MonthStart(m) + day - 1 >= 0
    ensures MonthStart(m) + day - 1 == 0 <==> m == 0 && day == 1
  {
  }

  /**
    Comparing day numbers, as the operators < and == do, compares dates in calendar order,
    for all dates of the calendar but the doubled ones and the days after them.
  */
  lemma OrderExactly(x: YearMonthDay, z: YearMonthDay)
    requires Valid(x) && Valid(z)
    ensures Julian(x) < Julian(z) <==> Before(x, z) && !(Doubled(x) && z == NextDay(x))
    ensures Julian(x) == Julian(z)
            <==> x == z || (Doubled(x) && z == NextDay(x)) || (Doubled(z) && x == NextDay(z))
  {
    hide Julian, NextDay, Doubled;
    NextDayStaysValid(x);
    NextDayStaysValid(z);
    if Before(x, z) {
      LaterDayNumber(x, z);
    } else if Before(z, x) {
      LaterDayNumber(z, x);
    } else {
      assert x == z;
    }
  }

  /** From the epoch on the order is the calendar's. */
  lemma OrderIsCalendarOrder(x: YearMonthDay, z: YearMonthDay)
    requires Valid(x) && FromEpoch(x) && Valid(z) && FromEpoch(z)
    ensures Julian(x) < Julian(z) <==> Before(x, z)
    ensures Julian(x) == Julian(z) <==> x == z
  {
    OrderExactly(x, z);
    hide Julian, NextDay;
  }

  // ---------- Days of the week ----------

  /** WeekDay is a day of the week for all day numbers from -1 on, and below only on Sundays. */
  lemma WeekDayRange(j: int)
    ensures 0 <= WeekDay(j) <= 6 <==> j >= -1 || (j + 1) % 7 == 0
    ensures j >= -1 ==> WeekDay(j + 1) == (WeekDay(j) + 1) % 7
    ensures j < -1 ==> -6 <= WeekDay(j) <= 0
    ensures (j + 1 - WeekDay(j)) % 7 == 0
  {
    hide Quotient, Remainder;
    QuotientTruncates(j + 1, 7);
    QuotientTruncates(j + 2, 7);
  }

  lemma WeekDayOfPositive(j: nat)
    ensures WeekDay(j) == (j + 1) % 7
  {
  }

  const FIRST_OF_1900 := YearMonthDay(1900, 1, 1)

  /** The first of January 1900 is a Monday, and the week follows from there for all later dates. */
  lemma WeekFollowsCalendar(n: nat)
    ensures Julian(FIRST_OF_1900) == 2415021
    ensures WeekDay(Julian(Advance(FIRST_OF_1900, n))) == (1 + n) % 7
  {
    assert Julian(FIRST_OF_1900) == 2415021;
    hide *;
    AdvanceCounts(FIRST_OF_1900, n);
    WeekDayOfPositive(2415021 + n);
    assert (2415022 + n) % 7 == (1 + n) % 7;
  }

  // ---------- Thirty-two bits ----------

  predicate IsInt(x: int) {
    -0x8000_0000 <= x < 0x8000_0000
  }

  /** No value that GetYearMonthDay computes on the way leaves the range of a 32-bit int. */
  predicate YearMonthDayFits(j: int) {
    IsInt(j) && IsInt(j + 32044) &&
    var a := j + 32044;
    IsInt(4 * a) && IsInt(4 * a + 3) &&
    var b := Quotient(4 * a + 3, 146097);
    IsInt(b * 146097) &&
    var c := a - Quotient(b * 146097, 4);
    YearFits(c) &&
    var d := Quotient(4 * c + 3, 1461);
    var e := c - Quotient(1461 * d, 4);
    MonthFits(e) &&
    var m := Quotient(5 * e + 2, 153);
    IsInt(b * 100) && IsInt(b * 100 + d) && IsInt(b * 100 + d - 4800) && IsInt(b * 100 + d - 4800 + Quotient(m, 10))
  }

  predicate YearFits(c: int) {
    IsInt(c) && IsInt(4 * c) && IsInt(4 * c + 3) &&
    var d := Quotient(4 * c + 3, 1461);
    IsInt(1461 * d) && IsInt(c - Quotient(1461 * d, 4))
  }

  predicate MonthFits(e: int) {
    IsInt(5 * e) && IsInt(5 * e + 2) &&
    var m := Quotient(5 * e + 2, 153);
    var n := Quotient(153 * m + 2, 5);
    IsInt(153 * m) && IsInt(153 * m + 2) && IsInt(e - n) && IsInt(e - n + 1)
    && IsInt(m + 3) && IsInt(12 * Quotient(m, 10)) && IsInt(m + 3 - 12 * Quotient(m, 10))
  }

  /** No value that GetJulianDayNumber computes on the way leaves the range of a 32-bit int. */
  predicate JulianFits(year: int, month: int, day: int) {
    IsInt(year) && IsInt(month) && IsInt(day) && IsInt(14 - month) && IsInt(year + 4800) &&
    var a := Quotient(14 - month, 12);
    var y := year + 4800 - a;
    IsInt(y) && IsInt(12 * a) && IsInt(month + 12 * a) && IsInt(month + 12 * a - 3) &&
    var m := month + 12 * a - 3;
    IsInt(153 * m) && IsInt(153 * m + 2) && SumsFit(y, day + Quotient(153 * m + 2, 5))
  }

  predicate SumsFit(y: int, days: int) {
    IsInt(days) && IsInt(y * 365) &&
    var s2 := days + y * 365;
    var s3 := s2 + Quotient(y, 4);
    var s4 := s3 - Quotient(y, 100);
    var s5 := s4 + Quotient(y, 400);
    IsInt(s2) && IsInt(s3) && IsInt(s4) && IsInt(s5) && IsInt(s5 - 32045)
  }

  const FIRST_FITTING := -536902956
  const LAST_FITTING := 536838867

  /** The day numbers that GetYearMonthDay converts without overflow are exactly this interval. */
  lemma YearMonthDayFitsExactly(j: int)
    ensures YearMonthDayFits(j) <==> FIRST_FITTING <= j <= LAST_FITTING
  {
    if FIRST_FITTING <= j <= LAST_FITTING {
      StepsFit(j);
    }
  }

  lemma StepsFit(j: int)
    requires FIRST_FITTING <= j <= LAST_FITTING
    ensures YearMonthDayFits(j)
  {
    hide Quotient, YearFits, MonthFits;
    var a := j + 32044;
    var b := Quotient(4 * a + 3, 146097);
    CenturyStepFits(a);
    var c := a - Quotient(b * 146097, 4);
    YearStepFits(c);
    var d := Quotient(4 * c + 3, 1461);
    MonthStepFits(c - Quotient(1461 * d, 4));
  }

  lemma CenturyStepFits(a: int)
    requires IsInt(4 * a) && IsInt(4 * a + 3)
    ensures var b := Quotient(4 * a + 3, 146097);
            -14700 <= b <= 14700 && IsInt(b * 146097) && -36525 <= a - Quotient(b * 146097, 4) <= 36525
  {
  }

  lemma YearStepFits(c: int)
    requires -36525 <= c <= 36525
    ensures YearFits(c)
    ensures var d := Quotient(4 * c + 3, 1461); -101 <= d <= 101 && -367 <= c - Quotient(1461 * d, 4) <= 367
  {
  }

  lemma MonthStepFits(e: int)
    requires -367 <= e <= 367
    ensures MonthFits(e)
    ensures -2 <= Quotient(Quotient(5 * e + 2, 153), 10) <= 2
  {
  }

  const FIRST_CONVERTIBLE := YearMonthDay(-5884290, 5, 13)
  const LAST_CONVERTIBLE := YearMonthDay(5874689, 12, 15)

  /** The dates that GetJulianDayNumber converts without overflow are exactly these. */
  lemma JulianFitsExactly(date: YearMonthDay)
    requires Valid(date)
    ensures JulianFits(date.year, date.month, date.day)
            <==> !Before(date, FIRST_CONVERTIBLE) && !Before(LAST_CONVERTIBLE, date)
  {
    var y, m := ShiftDate(date);
    DayInYear(y, m, date.day);
    hide *;
    SumsOfShifted(y, m, date.day);
    LargestSumFits(y, MonthStart(m) + date.day);
    BetweenConvertible(y, m, date.day);
  }

  /** The sum of the days of the months, the years and the leap years is the largest value on the way. */
  function LargestSum(y: int, days: int): int {
    days + 365 * y + Quotient(y, 4)
  }

  lemma SumsOfShifted(y: int, m: nat, day: int)
    requires m <= 11 && Valid(Shifted(y, m, day))
    ensures var date := Shifted(y, m, day);
            JulianFits(date.year, date.month, date.day) <==> IsInt(LargestSum(y, MonthStart(m) + day))
  {
    var days := MonthStart(m) + day;
    assert 1 <= day <= 31 && days <= 368;
    hide *;
    StepsOfShifted(y, m, day);
    SumsFitExactly(y, days);
    if SumsFit(y, days) { SumsFitNear(y, m, day, days); }
  }

  lemma StepsOfShifted(y: int, m: nat, day: int)
    requires m <= 11 && 1 <= day <= 31
    ensures var date := Shifted(y, m, day);
            JulianFits(date.year, date.month, date.day)
            <==> IsInt(date.year) && IsInt(date.year + 4800) && IsInt(y) && SumsFit(y, MonthStart(m) + day)
  {
    hide SumsFit;
    var date := Shifted(y, m, day);
    assert Quotient(14 - date.month, 12) == m / 10 && y == date.year + 4800 - m / 10;
    assert Quotient(153 * m + 2, 5) == MonthStart(m);
  }

  lemma SumsFitNear(y: int, m: nat, day: int, days: int)
    requires SumsFit(y, days) && m <= 11
    ensures IsInt(y) && IsInt(Shifted(y, m, day).year) && IsInt(Shifted(y, m, day).year + 4800)
  {
  }

  lemma SumsFitExactly(y: int, days: int)
    requires 1 <= days <= 368
    ensures SumsFit(y, days) <==> IsInt(LargestSum(y, days))
  {
    assert 0 <= (if y >= 0 then Quotient(y, 100) - Quotient(y, 400) else Quotient(-y, 100) - Quotient(-y, 400));
  }

  lemma LargestSumFits(y: int, days: int)
    requires 1 <= days <= 368
    ensures IsInt(LargestSum(y, days))
            <==> (-5879490 < y || (y == -5879490 && days >= 74)) && (y < 5879489 || (y == 5879489 && days <= 290))
  {
  }

  lemma BetweenConvertible(y: int, m: nat, day: int)
    requires m <= 11 && Valid(Shifted(y, m, day))
    ensures var date, days := Shifted(y, m, day), MonthStart(m) + day;
            !Before(date, FIRST_CONVERTIBLE) && !Before(LAST_CONVERTIBLE, date)
            <==> (-5879490 < y || (y == -5879490 && days >= 74)) && (y < 5879489 || (y == 5879489 && days <= 290))
  {
  }

  /** A date found from a fitting day number of the epoch converts back without overflow. */
  lemma ConvertingBackFits(j: int)
    requires EPOCH_JULIAN <= j <= LAST_FITTING
    ensures var date := GetYearMonthDay(j); JulianFits(date.year, date.month, date.day)
    ensures var date := GetYearMonthDay(j); GetJulianDayNumber(date.year, date.month, date.day) == j
  {
    JulianRoundTrip(j);
    var y, m, day := SplitDay(j);
    YearStartBound(y);
    ShiftedFits(y, m, day);
  }

  lemma YearStartBound(y: nat)
    ensures 365 * y <= YearStart(y)
  {
  }

  lemma ShiftedFits(y: nat, m: nat, day: nat)
    requires y <= 1470900 && m <= 11 && day <= 31
    ensures var date := Shifted(y, m, day); JulianFits(date.year, date.month, date.day)
  {
  }
}
