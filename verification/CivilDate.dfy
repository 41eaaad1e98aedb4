/** Civil-date arithmetic of utility/Date.cpp and the second-to-date conversions of
    utility/TimeZone.cpp, with C++'s truncating division written out. */
module CivilDate {

  const SECONDS_PER_DAY := 86400
  const EPOCH_JULIAN_DAY := 2440588
  const FIRST_JULIAN_DAY := -32044
  const LAST_JULIAN_DAY := 536838867

  /** The last day whose number getJulianDayNumber computes in 32 bits. */
  const LAST_DATED_DAY := 2147407506
  const LAST_DATE := Date(5874689, 12, 15)

  /** C++ integer division: rounds toward zero. */
  function TruncDiv(a: int, b: int): int
    requires b > 0
  {
    if a >= 0 then a / b else -((-a) / b)
  }

  /** C++ integer remainder: has the sign of the dividend. */
  function TruncMod(a: int, b: int): int
    requires b > 0
  {
    a - b * TruncDiv(a, b)
  }

  predicate Fits32(x: int) {
    -0x8000_0000 <= x < 0x8000_0000
  }

  // ----- The Gregorian calendar, independently of the algorithms -----

  datatype Date = Date(year: int, month: int, day: int)

  predicate IsLeapYear(year: int) {
    year % 4 == 0 && (year % 100 != 0 || year % 400 == 0)
  }

  function DaysInMonth(year: int, month: int): int {
    if month == 2 then (if IsLeapYear(year) then 29 else 28)
    else if month in {4, 6, 9, 11} then 30
    else 31
  }

  predicate ValidDate(d: Date) {
    1 <= d.month <= 12 && 1 <= d.day <= DaysInMonth(d.year, d.month)
  }

  /** The dates the algorithm covers: 1 March -4800 and everything after it. */
  predicate InCalendar(d: Date) {
    ValidDate(d) && (d.year > -4800 || (d.year == -4800 && d.month >= 3))
  }

  function NextDay(d: Date): Date {
    if d.day < DaysInMonth(d.year, d.month) then Date(d.year, d.month, d.day + 1)
    else if d.month < 12 then Date(d.year, d.month + 1, 1)
    else Date(d.year + 1, 1, 1)
  }

  predicate Earlier(a: Date, b: Date) {
    a.year < b.year
    || (a.year == b.year && (a.month < b.month || (a.month == b.month && a.day < b.day)))
  }

  // ----- utility/Date.cpp -----

  function JulianDay(d: Date): int {
    var a := TruncDiv(14 - d.month, 12);
    var y := d.year + 4800 - a;
    var m := d.month + 12 * a - 3;
    d.day + TruncDiv(153 * m + 2, 5) + y * 365 + TruncDiv(y, 4) - TruncDiv(y, 100) + TruncDiv(y, 400) - 32045
  }

  function YearMonthDay(julianDay: int): Date {
    var a := julianDay + 32044;
    var b := TruncDiv(4 * a + 3, 146097);
    var c := a - TruncDiv(b * 146097, 4);
    var d := TruncDiv(4 * c + 3, 1461);
    var e := c - TruncDiv(1461 * d, 4);
    var m := TruncDiv(5 * e + 2, 153);
    Date(b * 100 + d - 4800 + TruncDiv(m, 10), m + 3 - 12 * TruncDiv(m, 10), e - TruncDiv(153 * m + 2, 5) + 1)
  }

  // ----- Years that start on 1 March -----

  /** Days in the March-based years before year y, counted from 1 March -4800. */
  function DaysBeforeYear(y: nat): int {
    365 * y + y / 4 - y / 100 + y / 400
  }

  /** Days from 1 March to the first day of the m-th month after March. */
  function DaysBeforeMonth(m: nat): int {
    (153 * m + 2) / 5
  }

  function MarchYear(d: Date): int {
    if d.month >= 3 then d.year + 4800 else d.year + 4799
  }

  function MarchMonth(d: Date): int {
    if d.month >= 3 then d.month - 3 else d.month + 9
  }

  /** A March-based year is a day longer exactly when the February that ends it is leap. */
  predicate LongYear(y: int) {
    IsLeapYear(y + 1)
  }

  lemma QuotientStep(y: nat)
    ensures (y + 1) / 4 == y / 4 + (if (y + 1) % 4 == 0 then 1 else 0)
    ensures (y + 1) / 100 == y / 100 + (if (y + 1) % 100 == 0 then 1 else 0)
    ensures (y + 1) / 400 == y / 400 + (if (y + 1) % 400 == 0 then 1 else 0)
  {
  }

  lemma MultiplesNest(y: nat)
    ensures y % 400 == 0 ==> y % 100 == 0
    ensures y % 100 == 0 ==> y % 4 == 0
  {
    if y % 400 == 0 {
      assert y == 400 * (y / 400);
      assert y / 100 == 4 * (y / 400);
    }
    if y % 100 == 0 {
      assert y == 100 * (y / 100);
      assert y / 4 == 25 * (y / 100);
    }
  }

  lemma YearLength(y: nat)
    ensures DaysBeforeYear(y + 1) == DaysBeforeYear(y) + (if LongYear(y) then 366 else 365)
  {
    QuotientStep(y);
    MultiplesNest(y + 1);
  }

  lemma {:induction false} YearsAreOrdered(x: nat, y: nat)
    requires x < y
    ensures DaysBeforeYear(y) >= DaysBeforeYear(x) + (if LongYear(x) then 366 else 365)
    decreases y
  {
    YearLength(y - 1);
    if x < y - 1 {
      YearsAreOrdered(x, y - 1);
    }
  }

  /** The day of a March-based year, from 0, of a valid date. */
  function DayOfYear(d: Date): int
    requires ValidDate(d)
  {
    DaysBeforeMonth(MarchMonth(d)) + d.day - 1
  }

  lemma LeapAgrees(year: int)
    ensures IsLeapYear(year + 4800) <==> IsLeapYear(year)
  {
    assert (year + 4800) / 4 == year / 4 + 1200;
    assert (year + 4800) / 100 == year / 100 + 48;
    assert (year + 4800) / 400 == year / 400 + 12;
  }

  lemma DayOfYearBounds(d: Date)
    requires InCalendar(d)
    ensures 0 <= DayOfYear(d) < (if LongYear(MarchYear(d)) then 366 else 365)
    ensures 0 <= MarchMonth(d) <= 11 && 0 <= MarchYear(d)
    ensures MarchMonth(d) < 11 ==> d.day <= DaysBeforeMonth(MarchMonth(d) + 1) - DaysBeforeMonth(MarchMonth(d))
  {
    if d.month == 2 {
      LeapAgrees(d.year);
    }
  }

  lemma JulianDayInMarchYears(d: Date)
    requires InCalendar(d)
    ensures 0 <= MarchYear(d)
    ensures JulianDay(d) + 32044 == DaysBeforeYear(MarchYear(d)) + DayOfYear(d)
  {
    DayOfYearBounds(d);
  }

  // ----- Splitting a day count -----

  lemma CenturySplit(b: nat, d: nat)
    requires d < 100
    ensures DaysBeforeYear(100 * b + d) == 146097 * b / 4 + 1461 * d / 4
  {
    var y := 100 * b + d;
    assert y / 100 == b;
    assert y / 400 == b / 4;
    assert y / 4 == 25 * b + d / 4;
    assert 146097 * b / 4 == 36524 * b + b / 4;
    assert 1461 * d / 4 == 365 * d + d / 4;
  }

  /** The day count within a century determines the century of the whole count. */
  lemma CenturyOfDay(b: nat, c: nat)
    requires c <= 36523 + (if b % 4 == 3 then 1 else 0)
    ensures (4 * (146097 * b / 4 + c) + 3) / 146097 == b
  {
    var x := 4 * (146097 * b / 4 + c) + 3;
    assert x == 146097 * b - b % 4 + 4 * c + 3;
    assert 0 <= x - 146097 * b < 146097;
  }

  /** The day of a century determines the year in it. */
  lemma YearOfCenturyDay(d: nat, e: nat)
    requires d < 100
    requires e < (if d % 4 == 3 then 366 else 365)
    ensures (4 * (1461 * d / 4 + e) + 3) / 1461 == d
  {
    var x := 4 * (1461 * d / 4 + e) + 3;
    assert x == 1461 * d - d % 4 + 4 * e + 3;
    assert 0 <= x - 1461 * d < 1461;
  }

  /** A day in a March-based year determines the century, the year in it and the day of the year. */
  lemma SplitYear(b: nat, d: nat, e: nat, a: int)
    requires d < 100
    requires e < (if LongYear(100 * b + d) then 366 else 365)
    requires a == DaysBeforeYear(100 * b + d) + e
    ensures (4 * a + 3) / 146097 == b
    ensures a - 146097 * b / 4 == 1461 * d / 4 + e
    ensures (4 * (1461 * d / 4 + e) + 3) / 1461 == d
  {
    CenturySplit(b, d);
    LongYearInCentury(b, d);
    YearOfCenturyDay(d, e);
    assert 1461 * d / 4 <= 36524 - 365;
    CenturyOfDay(b, 1461 * d / 4 + e);
  }

  lemma LongYearInCentury(b: nat, d: nat)
    requires d < 100
    ensures LongYear(100 * b + d) <==> if d == 99 then b % 4 == 3 else d % 4 == 3
  {
    var y := 100 * b + d + 1;
    if d == 99 {
      assert y / 4 == 25 * (b + 1) && y / 100 == b + 1;
      assert y / 400 == (b + 1) / 4;
    } else {
      assert y / 4 == 25 * b + (d + 1) / 4 && y / 100 == b;
    }
  }

  lemma SplitMonth(m: nat, day: int)
    requires m <= 11 && 1 <= day
    requires m < 11 ==> day <= DaysBeforeMonth(m + 1) - DaysBeforeMonth(m)
    requires m == 11 ==> day <= 29
    ensures (5 * (DaysBeforeMonth(m) + day - 1) + 2) / 153 == m
  {
  }

  // ----- What the two conversions promise -----

  /** Every day number from 1 March -4800 on is the day number of exactly the date it converts to. */
  lemma DayRoundTrip(julianDay: int)
    requires julianDay >= FIRST_JULIAN_DAY
    ensures InCalendar(YearMonthDay(julianDay))
    ensures JulianDay(YearMonthDay(julianDay)) == julianDay
  {
    hide JulianDay, YearMonthDay, InCalendar, DaysBeforeYear, LongYear;
    var a := julianDay + 32044;
    var b := (4 * a + 3) / 146097;
    var c := a - 146097 * b / 4;
    CenturyBounds(a);
    var d := (4 * c + 3) / 1461;
    var e := c - 1461 * d / 4;
    YearBounds(b, c);
    var m := (5 * e + 2) / 153;
    MonthBounds(e);
    StepsOfYearMonthDay(a, b, c, d, e, m);
    CenturySplit(b, d);
    JulianDayOfMarchYear(100 * b + d, m, e - (153 * m + 2) / 5 + 1);
  }

  /** On non-negative operands truncating and flooring division agree, so the steps can be named. */
  lemma StepsOfYearMonthDay(a: nat, b: nat, c: nat, d: nat, e: nat, m: nat)
    requires b == (4 * a + 3) / 146097 && c == a - 146097 * b / 4
    requires d == (4 * c + 3) / 1461 && e == c - 1461 * d / 4
    requires m == (5 * e + 2) / 153
    ensures YearMonthDay(a - 32044)
         == Date(100 * b + d - 4800 + m / 10, m + 3 - 12 * (m / 10), e - (153 * m + 2) / 5 + 1)
  {
    hide TruncDiv;
    TruncDivOfNat(4 * a + 3, 146097);
    TruncDivOfNat(b * 146097, 4);
    TruncDivOfNat(4 * c + 3, 1461);
    TruncDivOfNat(1461 * d, 4);
    TruncDivOfNat(5 * e + 2, 153);
    TruncDivOfNat(m, 10);
    TruncDivOfNat(153 * m + 2, 5);
  }

  lemma TruncDivOfNat(a: nat, b: int)
    requires b > 0
    ensures TruncDiv(a, b) == a / b
  {
  }

  lemma JulianDayOfMarchYear(y: nat, m: nat, day: int)
    requires m <= 11 && 1 <= day
    requires day <= if m == 11 then (if LongYear(y) then 29 else 28) else DaysBeforeMonth(m + 1) - DaysBeforeMonth(m)
    ensures JulianDay(FromMarchYear(y, m, day)) + 32044 == DaysBeforeYear(y) + DaysBeforeMonth(m) + day - 1
  {
    JulianDayInMarchYears(FromMarchYear(y, m, day));
  }

  /** The date that is the given day of the m-th month after March of a March-based year. */
  function FromMarchYear(y: nat, m: nat, day: int): (date: Date)
    requires m <= 11 && 1 <= day
    requires day <= if m == 11 then (if LongYear(y) then 29 else 28) else DaysBeforeMonth(m + 1) - DaysBeforeMonth(m)
    ensures InCalendar(date) && MarchYear(date) == y && MarchMonth(date) == m && date.day == day
  {
    LeapAgrees(y - 4799);
    Date(y - 4800 + m / 10, m + 3 - 12 * (m / 10), day)
  }

  lemma YearBounds(b: nat, c: nat)
    requires c <= 36523 + (if b % 4 == 3 then 1 else 0)
    ensures var d := (4 * c + 3) / 1461;
            var e := c - 1461 * d / 4;
            0 <= d < 100 && 0 <= e < (if LongYear(100 * b + d) then 366 else 365)
  {
    var d := (4 * c + 3) / 1461;
    LongYearInCentury(b, d);
    assert 4 * (1461 * d / 4) == 1461 * d - d % 4;
  }

  lemma CenturyBounds(a: nat)
    ensures var b := (4 * a + 3) / 146097;
            var c := a - 146097 * b / 4;
            0 <= c <= 36523 + (if b % 4 == 3 then 1 else 0)
  {
    var b := (4 * a + 3) / 146097;
    assert 146097 * b <= 4 * a + 3 < 146097 * b + 146097;
    QuarterOf(b);
  }

  lemma QuarterOf(b: nat)
    ensures 4 * (146097 * b / 4) == 146097 * b - b % 4
  {
    var k, r := 36524 * b + b / 4, b % 4;
    assert 146097 * b == 4 * k + r;
    assert (4 * k + r) / 4 == k;
  }

  lemma MonthBounds(e: nat)
    requires e <= 365
    ensures var m := (5 * e + 2) / 153;
            && 0 <= m <= 11
            && var day := e - (153 * m + 2) / 5 + 1;
               && 1 <= day <= (if m == 11 then e - 336 else DaysBeforeMonth(m + 1) - DaysBeforeMonth(m))
  {
  }

  /** Every date from 1 March -4800 on comes back from its day number. */
  lemma DateRoundTrip(date: Date)
    requires InCalendar(date)
    ensures JulianDay(date) >= FIRST_JULIAN_DAY
    ensures YearMonthDay(JulianDay(date)) == date
  {
    hide JulianDay, YearMonthDay, DaysBeforeYear, LongYear, DaysBeforeMonth, IsLeapYear, DaysInMonth;
    JulianDayInMarchYears(date);
    DayOfYearBounds(date);
    var y, e, m := MarchYear(date), DayOfYear(date), MarchMonth(date);
    var b, d, a := y / 100, y % 100, JulianDay(date) + 32044;
    SplitYear(b, d, e, a);
    MonthOfDate(date);
    StepsOfYearMonthDay(a, b, 1461 * d / 4 + e, d, e, m);
  }

  lemma MonthOfDate(date: Date)
    requires InCalendar(date)
    ensures var m, e := MarchMonth(date), DayOfYear(date);
            && m == (5 * e + 2) / 153 && e - (153 * m + 2) / 5 + 1 == date.day
            && m + 3 - 12 * (m / 10) == date.month && MarchYear(date) - 4800 + m / 10 == date.year
  {
    DayOfYearBounds(date);
    SplitMonth(MarchMonth(date), date.day);
  }

  /** Below the range two dates share a day number, so the range cannot be widened. */
  lemma RangeIsTight()
    ensures ValidDate(Date(-4800, 2, 29)) && !InCalendar(Date(-4800, 2, 29))
    ensures JulianDay(Date(-4800, 2, 29)) == JulianDay(Date(-4800, 3, 1)) == FIRST_JULIAN_DAY
  {
  }

  /** The next calendar day has the next day number. */
  lemma NextDayIsNextNumber(date: Date)
    requires InCalendar(date)
    ensures InCalendar(NextDay(date))
    ensures JulianDay(NextDay(date)) == JulianDay(date) + 1
  {
    hide JulianDay, DaysBeforeYear;
    var next := NextDay(date);
    JulianDayInMarchYears(date);
    DayOfYearBounds(date);
    assert ValidDate(next);
    JulianDayInMarchYears(next);
    if date.month == 2 && next.month == 3 {
      LeapAgrees(date.year);
      YearLength(MarchYear(date));
    }
  }

  /** Day numbers order dates exactly as the calendar does. */
  lemma OrderIsPreserved(x: Date, y: Date)
    requires InCalendar(x) && InCalendar(y)
    ensures Earlier(x, y) <==> JulianDay(x) < JulianDay(y)
  {
    if Earlier(x, y) {
      EarlierIsLess(x, y);
    } else if Earlier(y, x) {
      EarlierIsLess(y, x);
    }
  }

  lemma EarlierIsLess(x: Date, y: Date)
    requires InCalendar(x) && InCalendar(y) && Earlier(x, y)
    ensures JulianDay(x) < JulianDay(y)
  {
    hide JulianDay, DaysBeforeYear, DaysBeforeMonth, LongYear, IsLeapYear, DaysInMonth;
    JulianDayInMarchYears(x);
    JulianDayInMarchYears(y);
    DayOfYearBounds(x);
    DayOfYearBounds(y);
    if MarchYear(x) < MarchYear(y) {
      YearsAreOrdered(MarchYear(x), MarchYear(y));
    } else if MarchMonth(x) < MarchMonth(y) {
      MonthsAreOrdered(MarchMonth(x), MarchMonth(y));
    }
  }

  lemma MonthsAreOrdered(m: nat, n: nat)
    requires m < n <= 11
    ensures DaysBeforeMonth(m + 1) <= DaysBeforeMonth(n)
  {
  }

  // ----- 32-bit arithmetic -----

  /** No intermediate value of YearMonthDay leaves 32 bits exactly up to the last day number. */
  lemma YearMonthDayFits(julianDay: int)
    requires FIRST_JULIAN_DAY <= julianDay
    ensures var a := julianDay + 32044;
            var b := TruncDiv(4 * a + 3, 146097);
            var c := a - TruncDiv(b * 146097, 4);
            var d := TruncDiv(4 * c + 3, 1461);
            var e := c - TruncDiv(1461 * d, 4);
            var m := TruncDiv(5 * e + 2, 153);
            var date := YearMonthDay(julianDay);
            (&& Fits32(a) && Fits32(4 * a + 3) && Fits32(b * 146097) && Fits32(4 * c + 3) && Fits32(1461 * d)
             && Fits32(5 * e + 2) && Fits32(153 * m + 2)
             && Fits32(date.year) && Fits32(date.month) && Fits32(date.day))
            <==> julianDay <= LAST_JULIAN_DAY
  {
    if julianDay <= LAST_JULIAN_DAY {
      var a := julianDay + 32044;
      CenturyBounds(a);
      MonthBoundsOfDay(a);
    }
  }

  lemma MonthBoundsOfDay(a: nat)
    ensures var b := (4 * a + 3) / 146097;
            var c := a - b * 146097 / 4;
            var d := (4 * c + 3) / 1461;
            var e := c - 1461 * d / 4;
            0 <= d < 100 && 0 <= e <= 365
  {
    CenturyBounds(a);
  }

  /** No intermediate value of JulianDay leaves 32 bits exactly up to 15 December 5874689; that is further than
      the way back reaches. */
  lemma JulianDayFits(date: Date)
    requires InCalendar(date)
    ensures var a := TruncDiv(14 - date.month, 12);
            var y := date.year + 4800 - a;
            var m := date.month + 12 * a - 3;
            var days := date.day + TruncDiv(153 * m + 2, 5);
            (&& Fits32(date.year + 4800) && Fits32(y) && Fits32(153 * m + 2) && Fits32(y * 365)
             && Fits32(days + y * 365) && Fits32(days + y * 365 + TruncDiv(y, 4))
             && Fits32(days + y * 365 + TruncDiv(y, 4) - TruncDiv(y, 100))
             && Fits32(JulianDay(date) + 32045) && Fits32(JulianDay(date)))
            <==> !Earlier(LAST_DATE, date)
    ensures JulianDay(LAST_DATE) > LAST_JULIAN_DAY
  {
    LastDateIsLastDay();
    OrderIsPreserved(LAST_DATE, date);
    hide TruncDiv, JulianDay, LongYear, IsLeapYear, DaysInMonth, DaysBeforeYear, DaysBeforeMonth;
    JulianDayInMarchYears(date);
    DayOfYearBounds(date);
    StepsOfJulianDay(date);
    var y: nat := MarchYear(date);
    LastDatedYear(y, DayOfYear(date), JulianDay(date) + 32044);
    SumsFit(date.year, MarchMonth(date), y, DayOfYear(date), JulianDay(date) + 32045);
  }

  lemma LastDateIsLastDay()
    ensures InCalendar(LAST_DATE) && JulianDay(LAST_DATE) == LAST_DATED_DAY
  {
  }

  /** The steps of JulianDay in terms of years that start on 1 March. */
  lemma StepsOfJulianDay(date: Date)
    requires InCalendar(date)
    ensures var a := TruncDiv(14 - date.month, 12);
            && date.year + 4800 - a == MarchYear(date) >= 0
            && date.month + 12 * a - 3 == MarchMonth(date) >= 0
            && date.day + TruncDiv(153 * MarchMonth(date) + 2, 5) == DayOfYear(date) + 1
            && TruncDiv(MarchYear(date), 4) == MarchYear(date) / 4
            && TruncDiv(MarchYear(date), 100) == MarchYear(date) / 100
            && JulianDay(date) + 32045 == DayOfYear(date) + 1 + MarchYear(date) * 365
                                          + MarchYear(date) / 4 - MarchYear(date) / 100 + MarchYear(date) / 400
            && MarchYear(date) <= date.year + 4800 <= MarchYear(date) + 1
  {
  }

  lemma SumsFit(year: int, m: int, y: nat, e: int, days: int)
    requires 0 <= m <= 11 && 0 <= e <= 365 && y <= year + 4800 <= y + 1
    requires days == e + 1 + y * 365 + y / 4 - y / 100 + y / 400 && y / 400 <= y / 100 <= y / 4
    ensures (&& Fits32(year + 4800) && Fits32(y) && Fits32(153 * m + 2) && Fits32(y * 365)
             && Fits32(e + 1 + y * 365) && Fits32(e + 1 + y * 365 + y / 4)
             && Fits32(e + 1 + y * 365 + y / 4 - y / 100) && Fits32(days) && Fits32(days - 32045))
            <==> 1 + e + 365 * y + y / 4 <= 0x7FFF_FFFF
  {
  }

  lemma LastDatedYear(y: nat, e: int, days: int)
    requires 0 <= e < (if LongYear(y) then 366 else 365) && days == DaysBeforeYear(y) + e
    ensures 1 + e + 365 * y + y / 4 <= 0x7FFF_FFFF <==> days <= LAST_DATED_DAY + 32044
    ensures days >= 0 && 0 <= y / 400 <= y / 100 <= y / 4
  {
    var last := 5879489;
    assert last / 4 == 1469872 && last / 100 == 58794 && last / 400 == 14698;
    if y < last {
      YearsAreOrdered(y, last);
    } else if y > last {
      YearsAreOrdered(last, y);
    }
  }

  // ----- BreakTime and fromUtcTime (utility/TimeZone.cpp) -----

  datatype DateTime = DateTime(date: Date, hour: int, minute: int, second: int)

  predicate ValidDateTime(dt: DateTime) {
    && InCalendar(dt.date)
    && 0 <= dt.hour < 24 && 0 <= dt.minute < 60 && 0 <= dt.second < 60
  }

  function BreakTime(t: int): DateTime {
    var truncated := TruncMod(t, SECONDS_PER_DAY);
    var borrow := truncated < 0;
    var seconds := if borrow then truncated + SECONDS_PER_DAY else truncated;
    var days := TruncDiv(t, SECONDS_PER_DAY) - (if borrow then 1 else 0);
    var minutes := seconds / 60;
    DateTime(YearMonthDay(days + EPOCH_JULIAN_DAY), minutes / 60, minutes % 60, seconds % 60)
  }

  function FromUtcTime(dt: DateTime): int {
    var secondsInDay := dt.hour * 3600 + dt.minute * 60 + dt.second;
    (JulianDay(dt.date) - EPOCH_JULIAN_DAY) * SECONDS_PER_DAY + secondsInDay
  }

  /** The seconds whose day number the date algorithm handles in 32 bits. */
  predicate InSecondRange(t: int) {
    (FIRST_JULIAN_DAY - EPOCH_JULIAN_DAY) * SECONDS_PER_DAY <= t
    < (LAST_JULIAN_DAY + 1 - EPOCH_JULIAN_DAY) * SECONDS_PER_DAY
  }

  /** The borrow turns truncating division into flooring division. */
  lemma BreakTimeFloors(t: int)
    ensures BreakTime(t).date == YearMonthDay(t / SECONDS_PER_DAY + EPOCH_JULIAN_DAY)
    ensures BreakTime(t).hour * 3600 + BreakTime(t).minute * 60 + BreakTime(t).second == t % SECONDS_PER_DAY
    ensures 0 <= BreakTime(t).hour < 24 && 0 <= BreakTime(t).minute < 60 && 0 <= BreakTime(t).second < 60
  {
    FloorFromTrunc(t);
  }

  lemma FloorFromTrunc(t: int)
    ensures TruncMod(t, SECONDS_PER_DAY) < 0 ==>
              && TruncMod(t, SECONDS_PER_DAY) + SECONDS_PER_DAY == t % SECONDS_PER_DAY
              && TruncDiv(t, SECONDS_PER_DAY) - 1 == t / SECONDS_PER_DAY
    ensures TruncMod(t, SECONDS_PER_DAY) >= 0 ==>
              && TruncMod(t, SECONDS_PER_DAY) == t % SECONDS_PER_DAY
              && TruncDiv(t, SECONDS_PER_DAY) == t / SECONDS_PER_DAY
  {
  }

  /** Breaking a second into a date and time loses nothing, before 1970 as after. */
  lemma SecondsRoundTrip(t: int)
    requires InSecondRange(t)
    ensures ValidDateTime(BreakTime(t))
    ensures FromUtcTime(BreakTime(t)) == t
  {
    hide BreakTime, JulianDay, YearMonthDay, InCalendar;
    BreakTimeFloors(t);
    var days := t / SECONDS_PER_DAY;
    assert t == days * SECONDS_PER_DAY + t % SECONDS_PER_DAY;
    assert days >= FIRST_JULIAN_DAY - EPOCH_JULIAN_DAY;
    DayRoundTrip(days + EPOCH_JULIAN_DAY);
  }

  /** A valid date and time comes back from its second. */
  lemma DateTimeRoundTrip(dt: DateTime)
    requires ValidDateTime(dt)
    ensures BreakTime(FromUtcTime(dt)) == dt
  {
    hide JulianDay, YearMonthDay, BreakTime;
    var t := FromUtcTime(dt);
    SecondOfDay(JulianDay(dt.date) - EPOCH_JULIAN_DAY, dt.hour * 3600 + dt.minute * 60 + dt.second);
    BreakTimeFloors(t);
    DateRoundTrip(dt.date);
    ClockIsUnique(dt, BreakTime(t));
  }

  // ----- Counting from 1 January 1970 -----

  /** The date n calendar days later. */
  function DaysLater(d: Date, n: nat): Date {
    if n == 0 then d else NextDay(DaysLater(d, n - 1))
  }

  lemma {:induction false} DaysLaterIsNumber(d: Date, n: nat)
    requires InCalendar(d)
    ensures InCalendar(DaysLater(d, n)) && JulianDay(DaysLater(d, n)) == JulianDay(d) + n
  {
    hide JulianDay, InCalendar, NextDay;
    if n > 0 {
      DaysLaterIsNumber(d, n - 1);
      NextDayIsNextNumber(DaysLater(d, n - 1));
    }
  }

  /** Second zero is the first second of 1970. */
  lemma EpochIsZero()
    ensures InCalendar(Date(1970, 1, 1)) && JulianDay(Date(1970, 1, 1)) == 2440588
    ensures FromUtcTime(DateTime(Date(1970, 1, 1), 0, 0, 0)) == 0
  {
  }

  lemma SameNumberSameDate(x: Date, y: Date)
    requires InCalendar(x) && InCalendar(y) && JulianDay(x) == JulianDay(y)
    ensures x == y
  {
    hide JulianDay, YearMonthDay, InCalendar;
    DateRoundTrip(x);
    DateRoundTrip(y);
  }

  lemma DayNumberOf(t: int)
    requires InSecondRange(t)
    ensures InCalendar(BreakTime(t).date)
    ensures JulianDay(BreakTime(t).date) == t / SECONDS_PER_DAY + EPOCH_JULIAN_DAY
  {
    hide BreakTime, JulianDay, YearMonthDay, InCalendar;
    BreakTimeFloors(t);
    assert t / SECONDS_PER_DAY >= FIRST_JULIAN_DAY - EPOCH_JULIAN_DAY;
    DayRoundTrip(t / SECONDS_PER_DAY + EPOCH_JULIAN_DAY);
  }

  /** The date of a second, counted day by day in the calendar from 1 January 1970, forward or back, and its clock
      time as seconds since midnight. */
  lemma CountsFromEpoch(t: int)
    requires InSecondRange(t)
    ensures t >= 0 ==> BreakTime(t).date == DaysLater(Date(1970, 1, 1), t / 86400)
    ensures t < 0 ==> DaysLater(BreakTime(t).date, -(t / 86400)) == Date(1970, 1, 1)
    ensures BreakTime(t).hour * 3600 + BreakTime(t).minute * 60 + BreakTime(t).second == t % 86400
    ensures 0 <= BreakTime(t).hour < 24 && 0 <= BreakTime(t).minute < 60 && 0 <= BreakTime(t).second < 60
  {
    hide BreakTime, JulianDay, YearMonthDay, InCalendar, DaysLater, FromUtcTime, InSecondRange;
    var epoch, days := Date(1970, 1, 1), t / 86400;
    EpochIsZero();
    BreakTimeFloors(t);
    DayNumberOf(t);
    if t >= 0 {
      DaysLaterIsNumber(epoch, days);
      SameNumberSameDate(BreakTime(t).date, DaysLater(epoch, days));
    } else {
      DaysLaterIsNumber(BreakTime(t).date, -days);
      SameNumberSameDate(DaysLater(BreakTime(t).date, -days), epoch);
    }
  }

  /** The second of a date and time n days after 1 January 1970. */
  lemma SecondsFromEpoch(n: nat, hour: int, minute: int, second: int)
    ensures FromUtcTime(DateTime(DaysLater(Date(1970, 1, 1), n), hour, minute, second))
            == 86400 * n + 3600 * hour + 60 * minute + second
  {
    EpochIsZero();
    hide JulianDay, InCalendar, DaysLater;
    DaysLaterIsNumber(Date(1970, 1, 1), n);
  }

  lemma SecondOfDay(days: int, seconds: int)
    requires 0 <= seconds < SECONDS_PER_DAY
    ensures (days * SECONDS_PER_DAY + seconds) / SECONDS_PER_DAY == days
    ensures (days * SECONDS_PER_DAY + seconds) % SECONDS_PER_DAY == seconds
  {
  }

  lemma ClockIsUnique(a: DateTime, b: DateTime)
    requires 0 <= a.hour < 24 && 0 <= a.minute < 60 && 0 <= a.second < 60
    requires 0 <= b.hour < 24 && 0 <= b.minute < 60 && 0 <= b.second < 60
    requires a.hour * 3600 + a.minute * 60 + a.second == b.hour * 3600 + b.minute * 60 + b.second
    ensures a.hour == b.hour && a.minute == b.minute && a.second == b.second
  {
  }
}
