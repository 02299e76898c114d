/** Rust's integer operators where they differ from Dafny's. */
module RustInt {
  const I64_MIN: int := -0x8000_0000_0000_0000
  const I64_MAX: int := 0x7fff_ffff_ffff_ffff

  newtype i64 = x: int | -0x8000_0000_0000_0000 <= x <= 0x7fff_ffff_ffff_ffff

  newtype u64 = x: int | 0 <= x <= 0xffff_ffff_ffff_ffff

  /** Rust's `/` on signed integers rounds toward zero. */
  function TruncDiv(a: int, b: int): int
    requires b > 0
  {
    if a >= 0 then a / b else -((-a) / b)
  }

  /** Rust's `/` on `i64`, for the dividends that can be negated. */
  function TruncDiv64(a: i64, b: i64): i64
    requires b > 0 && a > -0x8000_0000_0000_0000
  {
    if a >= 0 then a / b else -((-a) / b)
  }
}

/**
 The proleptic Gregorian calendar of `civil_from_days`, and the proof that its closed form
 counts days one by one.
 */
module Calendar {
  import opened RustInt

  datatype Date = Date(year: int, month: int, day: int)

  // ----- the closed form -----

  function Era(z: int): int {
    TruncDiv(if z >= 0 then z else z - 146096, 146097)
  }

  function YearOfEra(dayOfEra: int): int {
    (dayOfEra - dayOfEra / 1460 + dayOfEra / 36524 - dayOfEra / 146096) / 365
  }

  /** The first day of a year of an era; years start on 1 March. */
  function EraYearStart(yearOfEra: int): int {
    365 * yearOfEra + yearOfEra / 4 - yearOfEra / 100
  }

  function MonthIndex(dayOfYear: int): int {
    (5 * dayOfYear + 2) / 153
  }

  /** The day of the year on which the `mp`-th month, counted from March, starts. */
  function MonthStart(mp: int): int {
    (153 * mp + 2) / 5
  }

  function CivilFromDays(days: int): Date {
    var z := days + 719468;
    var era := Era(z);
    var doe := z - era * 146097;
    var yoe := YearOfEra(doe);
    var y := yoe + era * 400;
    var doy := doe - EraYearStart(yoe);
    FromMarchYear(y, doy)
  }

  /** The date of a day counted from 1 March of `year`. */
  function FromMarchYear(year: int, dayOfYear: int): Date {
    var mp := MonthIndex(dayOfYear);
    var d := dayOfYear - MonthStart(mp) + 1;
    var m := if mp < 10 then mp + 3 else mp - 9;
    Date(if m <= 2 then year + 1 else year, m, d)
  }

  // ----- the calendar itself -----

  predicate IsLeap(year: int) {
    year % 4 == 0 && (year % 100 != 0 || year % 400 == 0)
  }

  function DaysInMonth(year: int, month: int): int {
    if month == 2 then if IsLeap(year) then 29 else 28
    else if month == 4 || month == 6 || month == 9 || month == 11 then 30
    else 31
  }

  predicate IsDate(date: Date) {
    1 <= date.month <= 12 && 1 <= date.day <= DaysInMonth(date.year, date.month)
  }

  function NextDay(date: Date): Date {
    if date.day < DaysInMonth(date.year, date.month) then date.(day := date.day + 1)
    else if date.month < 12 then Date(date.year, date.month + 1, 1)
    else Date(date.year + 1, 1, 1)
  }

  predicate Before(a: Date, b: Date) {
    a.year < b.year
    || (a.year == b.year && (a.month < b.month || (a.month == b.month && a.day < b.day)))
  }

  // ----- the inverse: a date's day number, from leap days elapsed -----

  function MarchYear(date: Date): int {
    if date.month <= 2 then date.year - 1 else date.year
  }

  function MarchMonth(date: Date): int {
    if date.month > 2 then date.month - 3 else date.month + 9
  }

  /** Days before 1 March of `year`, counted from 1 March of year 0. */
  function YearStart(year: int): int {
    365 * year + year / 4 - year / 100 + year / 400
  }

  function DayOfYear(date: Date): int {
    MonthStart(MarchMonth(date)) + date.day - 1
  }

  function DaysFromCivil(date: Date): int {
    YearStart(MarchYear(date)) + DayOfYear(date) - 719468
  }

  // ----- every range named beside the closed form -----

  /** The truncating quotient with its negative correction is the floor, so the day of era is a remainder. */
  lemma EraIsFloor(z: int)
    ensures Era(z) == z / 146097
    ensures 0 <= z - Era(z) * 146097 <= 146096
  {
    if z < 0 {
      var n := 146096 - z;
      assert Era(z) == -(n / 146097);
      assert n == 146097 * (n / 146097) + n % 146097;
    }
  }

  /** A day of an era is some number of centuries, 4-year groups, years and days. */
  lemma SplitDayOfEra(doe: int) returns (c: int, q: int, y: int, d: int)
    requires 0 <= doe <= 146096
    ensures doe == 36524 * c + 1461 * q + 365 * y + d
    ensures 0 <= c <= 3 && 0 <= q <= 24 && 0 <= y <= 3 && 0 <= d <= 365
    ensures d == 365 ==> y == 3 && (q < 24 || c == 3)
  {
    c := if doe == 146096 then 3 else doe / 36524;
    var r := doe - 36524 * c;
    assert 0 <= r <= 36524 && (r == 36524 ==> c == 3);
    q := r / 1461;
    var s := r - 1461 * q;
    y := if s == 1460 then 3 else s / 365;
    d := s - 365 * y;
  }

  /** The correction terms of the closed form cancel the leap days exactly. */
  lemma YearOfEraSplit(doe: int, c: int, q: int, y: int, d: int)
    requires doe == 36524 * c + 1461 * q + 365 * y + d
    requires 0 <= c <= 3 && 0 <= q <= 24 && 0 <= y <= 3 && 0 <= d <= 365
    requires d == 365 ==> y == 3 && (q < 24 || c == 3)
    ensures YearOfEra(doe) == 100 * c + 4 * q + y
    ensures doe - EraYearStart(YearOfEra(doe)) == d
  {
    var yoe := 100 * c + 4 * q + y;
    assert yoe / 4 == 25 * c + q;
    assert yoe / 100 == c;
    assert EraYearStart(yoe) == 36524 * c + 1461 * q + 365 * y;
    var e := (24 * c + q + 365 * y + d) / 1460;
    assert doe / 1460 == 25 * c + q + e by {
      assert doe == 1460 * (25 * c + q) + (24 * c + q + 365 * y + d);
    }
    if doe == 146096 {
      assert c == 3 && q == 24 && y == 3 && d == 365;
    } else {
      assert 1461 * q + 365 * y + d <= 36523;
      assert doe / 36524 == c;
      assert doe / 146096 == 0;
      assert 0 <= d - e <= 364;
      assert doe - doe / 1460 + doe / 36524 == 365 * yoe + (d - e);
    }
  }

  lemma YearOfEraRange(doe: int)
    requires 0 <= doe <= 146096
    ensures 0 <= YearOfEra(doe) <= 399
    ensures 0 <= doe - EraYearStart(YearOfEra(doe)) <= 365
    ensures doe - EraYearStart(YearOfEra(doe)) == 365 ==> IsLeap(YearOfEra(doe) + 1)
  {
    var c, q, y, d := SplitDayOfEra(doe);
    YearOfEraSplit(doe, c, q, y, d);
    if d == 365 {
      var leap := 100 * c + 4 * q + 4;
      assert leap == 4 * (25 * c + q + 1);
      if q < 24 {
        assert leap % 100 == 4 * q + 4;
      }
    }
  }

  lemma MonthRange(doy: int)
    requires 0 <= doy <= 365
    ensures 0 <= MonthIndex(doy) <= 11
    ensures MonthStart(MonthIndex(doy)) <= doy < MonthStart(MonthIndex(doy) + 1)
  {
  }

  /** Month starts, spelled out: months from March have 31, 30, 31, 30, 31, 31, 30, 31, 30, 31, 31 days. */
  lemma MonthStarts()
    ensures MonthStart(0) == 0 && MonthStart(1) == 31 && MonthStart(2) == 61 && MonthStart(3) == 92
    ensures MonthStart(4) == 122 && MonthStart(5) == 153 && MonthStart(6) == 184 && MonthStart(7) == 214
    ensures MonthStart(8) == 245 && MonthStart(9) == 275 && MonthStart(10) == 306 && MonthStart(11) == 337
  {
  }

  // ----- the closed form against the calendar -----

  /** A day number yields a calendar date, and that date's day number is the one given. */
  lemma CivilInvertsDays(days: int)
    ensures IsDate(CivilFromDays(days))
    ensures DaysFromCivil(CivilFromDays(days)) == days
  {
    hide Era, YearOfEra, EraYearStart, YearStart, IsLeap, FromMarchYear, MonthIndex, MonthStart;
    var z := days + 719468;
    var era := Era(z);
    EraIsFloor(z);
    var doe := z - era * 146097;
    var yoe := YearOfEra(doe);
    YearOfEraRange(doe);
    var doy := doe - EraYearStart(yoe);
    var y := yoe + era * 400;
    YearStartOfEra(yoe, era);
    LeapPeriod(yoe + 1, era);
    MarchYearDates(y, doy);
  }

  lemma MarchYearDates(year: int, doy: int)
    requires 0 <= doy <= 365 && (doy == 365 ==> IsLeap(year + 1))
    ensures IsDate(FromMarchYear(year, doy))
    ensures MarchYear(FromMarchYear(year, doy)) == year && DayOfYear(FromMarchYear(year, doy)) == doy
  {
    MonthRange(doy);
    MonthStarts();
  }

  lemma YearStartOfEra(yoe: int, era: int)
    requires 0 <= yoe <= 399
    ensures YearStart(yoe + era * 400) == EraYearStart(yoe) + era * 146097
  {
    var y := yoe + era * 400;
    assert y / 4 == yoe / 4 + era * 100;
    assert y / 100 == yoe / 100 + era * 4;
    assert y / 400 == era;
  }

  lemma LeapPeriod(year: int, era: int)
    ensures IsLeap(year + era * 400) == IsLeap(year)
  {
    Mod4(year, 100 * era);
    Mod100(year, 4 * era);
    Mod400(year, era);
  }

  lemma Mod4(n: int, k: int)
    ensures (n + 4 * k) % 4 == n % 4
  {
  }

  lemma Mod100(n: int, k: int)
    ensures (n + 100 * k) % 100 == n % 100
  {
  }

  lemma Mod400(n: int, k: int)
    ensures (n + 400 * k) % 400 == n % 400
  {
  }

  lemma YearStartSteps(year: int)
    ensures YearStart(year + 1) - YearStart(year) == if IsLeap(year + 1) then 366 else 365
  {
    var n := year + 1;
    assert n / 4 - year / 4 == if n % 4 == 0 then 1 else 0;
    assert n / 100 - year / 100 == if n % 100 == 0 then 1 else 0;
    assert n / 400 - year / 400 == if n % 400 == 0 then 1 else 0;
    assert n % 100 == 0 ==> n % 4 == 0;
    assert n % 400 == 0 ==> n % 100 == 0;
  }

  lemma YearStartGrows(a: int, b: int)
    requires a < b
    ensures YearStart(a + 1) <= YearStart(b)
  {
    if a + 1 < b {
      assert YearStart(b) - YearStart(a + 1) >= 365 * (b - a - 1) - 3;
    }
  }

  lemma DayOfYearRange(date: Date)
    requires IsDate(date)
    ensures 0 <= DayOfYear(date) < YearStart(MarchYear(date) + 1) - YearStart(MarchYear(date))
    ensures MonthIndex(DayOfYear(date)) == MarchMonth(date)
  {
    MonthStarts();
    YearStartSteps(MarchYear(date));
  }

  /** Day numbers order calendar dates: this is what makes the day number of a date unique. */
  lemma DaysOrderDates(a: Date, b: Date)
    requires IsDate(a) && IsDate(b) && Before(a, b)
    ensures DaysFromCivil(a) < DaysFromCivil(b)
  {
    DayOfYearRange(a);
    DayOfYearRange(b);
    if MarchYear(a) < MarchYear(b) {
      YearStartGrows(MarchYear(a), MarchYear(b));
    } else {
      MonthStarts();
    }
  }

  /** The closed form recovers every date of the calendar: with `CivilInvertsDays` it is a bijection. */
  lemma DaysInvertCivil(date: Date)
    requires IsDate(date)
    ensures CivilFromDays(DaysFromCivil(date)) == date
  {
    var back := CivilFromDays(DaysFromCivil(date));
    CivilInvertsDays(DaysFromCivil(date));
    if Before(back, date) {
      DaysOrderDates(back, date);
    } else if Before(date, back) {
      DaysOrderDates(date, back);
    }
  }

  lemma NextDayCounts(date: Date)
    requires IsDate(date)
    ensures IsDate(NextDay(date)) && DaysFromCivil(NextDay(date)) == DaysFromCivil(date) + 1
  {
    MonthStarts();
    YearStartSteps(MarchYear(date));
  }

  lemma Epoch()
    ensures CivilFromDays(0) == Date(1970, 1, 1)
  {
    assert Era(719468) == 4;
    assert YearOfEra(135080) == 369;
    assert EraYearStart(369) == 134774;
  }

  /** Day 0 is 1 January 1970, and each later day number is the next day of the calendar. */
  lemma CivilCountsDays(days: int)
    ensures CivilFromDays(0) == Date(1970, 1, 1)
    ensures CivilFromDays(days + 1) == NextDay(CivilFromDays(days))
  {
    Epoch();
    hide CivilFromDays, DaysFromCivil, NextDay;
    CivilInvertsDays(days);
    NextDayCounts(CivilFromDays(days));
    DaysInvertCivil(NextDay(CivilFromDays(days)));
  }

  lemma CivilOrdersDays(a: int, b: int)
    ensures a < b <==> Before(CivilFromDays(a), CivilFromDays(b))
  {
    CivilInvertsDays(a);
    CivilInvertsDays(b);
    var da, db := CivilFromDays(a), CivilFromDays(b);
    if Before(da, db) {
      DaysOrderDates(da, db);
    } else if Before(db, da) {
      DaysOrderDates(db, da);
    }
  }

  // ----- machine arithmetic -----

  /**
   The same computation in 64-bit machine integers. Every step is checked against the width, so the
   one condition on the argument is exactly that the first addition does not overflow.
   */
  function CivilFromDays64(days: i64): (date: (i64, u64, u64))
    requires days as int + 719468 <= I64_MAX
    ensures Date(date.0 as int, date.1 as int, date.2 as int) == CivilFromDays(days as int)
  {
    hide FromMarchYear, EraYearStart, YearOfEra, Era;
    var z := days + 719468;
    EraIsFloor(z as int);
    var era := Era64(z);
    var doe := (z - era * 146097) as u64;
    YearOfEraRange(doe as int);
    var yoe := YearOfEra64(doe);
    var y := yoe as i64 + era * 400;
    MarchYearDate64(y, doe - EraYearStart64(yoe))
  }

  function Era64(z: i64): (era: i64)
    requires z >= -0x8000_0000_0000_0000 + 719468
    ensures era as int == Era(z as int)
  {
    TruncDiv64(if z >= 0 then z else z - 146096, 146097)
  }

  function YearOfEra64(dayOfEra: u64): (yoe: u64)
    requires dayOfEra <= 146096
    ensures yoe as int == YearOfEra(dayOfEra as int)
  {
    (dayOfEra - dayOfEra / 1460 + dayOfEra / 36524 - dayOfEra / 146096) / 365
  }

  function EraYearStart64(yearOfEra: u64): (start: u64)
    requires yearOfEra <= 399
    ensures start as int == EraYearStart(yearOfEra as int)
  {
    365 * yearOfEra + yearOfEra / 4 - yearOfEra / 100
  }

  function MarchYearDate64(year: i64, dayOfYear: u64): (date: (i64, u64, u64))
    requires dayOfYear <= 365 && year as int < I64_MAX
    ensures Date(date.0 as int, date.1 as int, date.2 as int) == FromMarchYear(year as int, dayOfYear as int)
  {
    MonthRange(dayOfYear as int);
    var mp := (5 * dayOfYear + 2) / 153;
    var d := dayOfYear - (153 * mp + 2) / 5 + 1;
    var m := if mp < 10 then mp + 3 else mp - 9;
    (if m <= 2 then year + 1 else year, m, d)
  }
}
