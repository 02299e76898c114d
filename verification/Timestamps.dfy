/** RFC 3339 timestamps, and when comparing them as strings compares them as instants. */
module Timestamps {
  import opened Calendar
  import opened Decimal
  import opened RustInt
  import opened Text

  const SECONDS_A_DAY := 86400

  function TimeOfDay(secondsOfDay: int): string
    requires 0 <= secondsOfDay < SECONDS_A_DAY
  {
    Padded(secondsOfDay / 3600, 2) + (":" + (Padded(secondsOfDay % 3600 / 60, 2)
    + (":" + (Padded(secondsOfDay % 60, 2) + "Z"))))
  }

  function Rfc3339(unixSeconds: int): string {
    var date := CivilFromDays(unixSeconds / SECONDS_A_DAY);
    Padded(date.year, 4) + ("-" + (Padded(date.month, 2) + ("-" + (Padded(date.day, 2)
    + ("T" + TimeOfDay(unixSeconds % SECONDS_A_DAY))))))
  }

  function Year(unixSeconds: int): int {
    CivilFromDays(unixSeconds / SECONDS_A_DAY).year
  }

  /**
   The same timestamp in 64-bit machine integers. It takes every `i64` second count: no step of it, or
   of the calendar it calls, leaves its machine type.
   */
  function Rfc3339Utc(unixSeconds: i64): (s: string)
    ensures s == Rfc3339(unixSeconds as int)
  {
    var days := unixSeconds / 86400;
    var secondsOfDay := unixSeconds % 86400;
    NoOverflow(unixSeconds);
    var (y, m, d) := CivilFromDays64(days);
    var clock := Padded((secondsOfDay / 3600) as int, 2) + (":" + (Padded((secondsOfDay % 3600 / 60) as int, 2)
      + (":" + (Padded((secondsOfDay % 60) as int, 2) + "Z"))));
    Padded(y as int, 4) + ("-" + (Padded(m as int, 2) + ("-" + (Padded(d as int, 2) + ("T" + clock)))))
  }

  lemma NoOverflow(unixSeconds: i64)
    ensures (unixSeconds / 86400) as int == unixSeconds as int / SECONDS_A_DAY
    ensures (unixSeconds % 86400) as int == unixSeconds as int % SECONDS_A_DAY
    ensures (unixSeconds / 86400) as int + 719468 <= I64_MAX
  {
  }

  lemma SeparatorOrder(c: char, x: string, y: string)
    ensures Less([c] + x, [c] + y) <==> Less(x, y)
  {
    LessByField([c], [c], x, y);
    LessIsStrict([c], [c]);
  }

  lemma TimeOfDayLength(s: int)
    requires 0 <= s < SECONDS_A_DAY
    ensures |TimeOfDay(s)| == 9
  {
    assert Pow10(2) == 100;
    PaddedLength(s / 3600, 2);
    PaddedLength(s % 3600 / 60, 2);
    PaddedLength(s % 60, 2);
  }

  lemma TimeOfDayOrder(s: int, t: int)
    requires 0 <= s < SECONDS_A_DAY && 0 <= t < SECONDS_A_DAY
    ensures Less(TimeOfDay(s), TimeOfDay(t)) <==> s < t
  {
    assert Pow10(2) == 100;
    var s3, t3 := Padded(s % 60, 2) + "Z", Padded(t % 60, 2) + "Z";
    LessIsStrict("Z", "Z");
    FieldOrder(s % 60, t % 60, 2, "Z", "Z");
    SeparatorOrder(':', s3, t3);
    var s2, t2 := Padded(s % 3600 / 60, 2) + (":" + s3), Padded(t % 3600 / 60, 2) + (":" + t3);
    FieldOrder(s % 3600 / 60, t % 3600 / 60, 2, ":" + s3, ":" + t3);
    SeparatorOrder(':', s2, t2);
    FieldOrder(s / 3600, t / 3600, 2, ":" + s2, ":" + t2);
    ClockOrder(s, t);
  }

  lemma ClockOrder(s: int, t: int)
    requires 0 <= s < SECONDS_A_DAY && 0 <= t < SECONDS_A_DAY
    ensures s < t <==>
      s / 3600 < t / 3600 || (s / 3600 == t / 3600 && (s % 3600 / 60 < t % 3600 / 60
      || (s % 3600 / 60 == t % 3600 / 60 && s % 60 < t % 60)))
  {
    assert s == 3600 * (s / 3600) + 60 * (s % 3600 / 60) + s % 60;
    assert t == 3600 * (t / 3600) + 60 * (t % 3600 / 60) + t % 60;
  }

  // ----- the years 0000 to 9999 -----

  /** 0000-01-01T00:00:00Z and 9999-12-31T23:59:59Z. */
  const FIRST_FOUR_DIGIT_SECOND := -62167219200
  const LAST_FOUR_DIGIT_SECOND := 253402300799

  predicate IsFourDigit(unixSeconds: int) {
    FIRST_FOUR_DIGIT_SECOND <= unixSeconds <= LAST_FOUR_DIGIT_SECOND
  }

  lemma LimitDays()
    ensures DaysFromCivil(Date(0, 1, 1)) == -719528
    ensures DaysFromCivil(Date(9999, 12, 31)) == 2932896
    ensures DaysFromCivil(Date(10000, 1, 1)) == 2932897
  {
    assert YearStart(-1) == -366 && YearStart(9999) == 3652059;
  }

  lemma FourDigitYears(s: int)
    ensures IsFourDigit(s) <==> 0 <= Year(s) <= 9999
    ensures Year(LAST_FOUR_DIGIT_SECOND) == 9999 && Year(LAST_FOUR_DIGIT_SECOND + 1) == 10000
  {
    var first, last, next := Date(0, 1, 1), Date(9999, 12, 31), Date(10000, 1, 1);
    LimitDays();
    assert FIRST_FOUR_DIGIT_SECOND == -719528 * SECONDS_A_DAY && LAST_FOUR_DIGIT_SECOND + 1 == 2932897 * SECONDS_A_DAY;
    hide CivilFromDays, DaysFromCivil, IsLeap;
    assert IsDate(first) && IsDate(last) && IsDate(next);
    DaysInvertCivil(first);
    DaysInvertCivil(last);
    DaysInvertCivil(next);
    var day := s / SECONDS_A_DAY;
    CivilOrdersDays(day, -719528);
    CivilOrdersDays(day, 2932897);
    CivilInvertsDays(day);
  }

  /** In a four-digit year a timestamp has the fixed width of the profile in section 5.1 of RFC 3339. */
  lemma FixedWidth(s: int)
    requires IsFourDigit(s)
    ensures |Rfc3339(s)| == 20
  {
    FourDigitYears(s);
    hide CivilFromDays;
    assert Pow10(2) == 100 && Pow10(3) == 1000 && Pow10(4) == 10000;
    var date := CivilFromDays(s / SECONDS_A_DAY);
    CivilInvertsDays(s / SECONDS_A_DAY);
    PaddedLength(date.year, 4);
    PaddedLength(date.month, 2);
    PaddedLength(date.day, 2);
    TimeOfDayLength(s % SECONDS_A_DAY);
  }

  predicate IsField(r: string, i: nat, j: nat, n: int) {
    i <= j <= |r| && All(r[i..j], IsDigit) && Value(r[i..j]) == n
  }

  /** The string has the shape of RFC 3339 and its fields are a date of the calendar and a time of day. */
  predicate Names(r: string, date: Date, hour: int, minute: int, second: int) {
    |r| == 20
    && r[4] == '-' && r[7] == '-' && r[10] == 'T' && r[13] == ':' && r[16] == ':' && r[19] == 'Z'
    && IsField(r, 0, 4, date.year) && IsField(r, 5, 7, date.month) && IsField(r, 8, 10, date.day)
    && IsField(r, 11, 13, hour) && IsField(r, 14, 16, minute) && IsField(r, 17, 19, second)
    && IsDate(date) && 0 <= hour < 24 && 0 <= minute < 60 && 0 <= second < 60
  }

  lemma TwoDigits(n: int)
    requires 0 <= n < 100
    ensures |Padded(n, 2)| == 2 && All(Padded(n, 2), IsDigit) && Value(Padded(n, 2)) == n
  {
    assert Pow10(2) == 100;
    PaddedLength(n, 2);
    ValueOfPadded(n, 2);
  }

  lemma FourDigits(n: int)
    requires 0 <= n < 10000
    ensures |Padded(n, 4)| == 4 && All(Padded(n, 4), IsDigit) && Value(Padded(n, 4)) == n
  {
    assert Pow10(2) == 100 && Pow10(3) == 1000 && Pow10(4) == 10000;
    PaddedLength(n, 4);
    ValueOfPadded(n, 4);
  }

  lemma ClockFields(clock: int)
    requires 0 <= clock < 86400
    ensures 0 <= clock / 3600 < 24 && 0 <= clock % 3600 / 60 < 60 && 0 <= clock % 60 < 60
    ensures clock / 3600 * 3600 + clock % 3600 / 60 * 60 + clock % 60 == clock
  {
  }

  lemma RenderedLayout(s: int)
    ensures var date := CivilFromDays(s / SECONDS_A_DAY);
      var clock := s % SECONDS_A_DAY;
      Rfc3339(s) == DateAndTime(Padded(date.year, 4), Padded(date.month, 2), Padded(date.day, 2),
                                Padded(clock / 3600, 2), Padded(clock % 3600 / 60, 2), Padded(clock % 60, 2))
  {
    hide CivilFromDays, Padded;
  }

  lemma NamedByLayout(date: Date, hour: int, minute: int, second: int)
    requires IsDate(date) && 0 <= date.year <= 9999 && 0 <= hour < 24 && 0 <= minute < 60 && 0 <= second < 60
    ensures Names(DateAndTime(Padded(date.year, 4), Padded(date.month, 2), Padded(date.day, 2),
                              Padded(hour, 2), Padded(minute, 2), Padded(second, 2)), date, hour, minute, second)
  {
    FourDigits(date.year);
    TwoDigits(date.month);
    TwoDigits(date.day);
    TwoDigits(hour);
    TwoDigits(minute);
    TwoDigits(second);
    SlicesOf(Padded(date.year, 4), Padded(date.month, 2), Padded(date.day, 2),
             Padded(hour, 2), Padded(minute, 2), Padded(second, 2));
    hide Padded, Value, IsLeap, DateAndTime, All;
  }

  /** Reading the string back gives the instant: day number and time of day add up to the second rendered. */
  lemma TimestampNamesInstant(s: int) returns (date: Date, hour: int, minute: int, second: int)
    requires IsFourDigit(s)
    ensures Names(Rfc3339(s), date, hour, minute, second)
    ensures DaysFromCivil(date) * 86400 + hour * 3600 + minute * 60 + second == s
  {
    FourDigitYears(s);
    var day, clock := s / SECONDS_A_DAY, s % SECONDS_A_DAY;
    date := CivilFromDays(day);
    CivilInvertsDays(day);
    ClockFields(clock);
    hour, minute, second := clock / 3600, clock % 3600 / 60, clock % 60;
    hide CivilFromDays, DaysFromCivil, Padded, IsDate, DateAndTime, Names, Rfc3339;
    RenderedLayout(s);
    NamedByLayout(date, hour, minute, second);
  }

  /** The layout of a timestamp, given its six fields. */
  function DateAndTime(year: string, month: string, day: string, hour: string, minute: string, second: string): string {
    year + ("-" + (month + ("-" + (day + ("T" + (hour + (":" + (minute + (":" + (second + "Z"))))))))))
  }

  lemma SlicesOf(year: string, month: string, day: string, hour: string, minute: string, second: string)
    requires |year| == 4 && |month| == |day| == |hour| == |minute| == |second| == 2
    ensures var r := DateAndTime(year, month, day, hour, minute, second);
      |r| == 20
      && r[4] == '-' && r[7] == '-' && r[10] == 'T' && r[13] == ':' && r[16] == ':' && r[19] == 'Z'
      && r[0..4] == year && r[5..7] == month && r[8..10] == day
      && r[11..13] == hour && r[14..16] == minute && r[17..19] == second
  {
    var time := hour + (":" + (minute + (":" + (second + "Z"))));
    assert time[0..2] == hour && time[3..5] == minute && time[6..8] == second;
    var r := DateAndTime(year, month, day, hour, minute, second);
    assert r[11..] == time;
    assert r[11..13] == time[0..2] && r[14..16] == time[3..5] && r[17..19] == time[6..8];
    assert r[0..4] == year && r[5..7] == month && r[8..10] == day;
  }

  /** In four-digit years timestamps sort as the instants they name. */
  lemma StringsSortAsInstants(s: int, t: int)
    requires IsFourDigit(s) && IsFourDigit(t)
    ensures s < t <==> Less(Rfc3339(s), Rfc3339(t))
  {
    FourDigitYears(s);
    FourDigitYears(t);
    hide CivilFromDays, DaysFromCivil, TimeOfDay;
    assert Pow10(2) == 100 && Pow10(3) == 1000 && Pow10(4) == 10000;
    var i, j := s / SECONDS_A_DAY, t / SECONDS_A_DAY;
    var a, b := CivilFromDays(i), CivilFromDays(j);
    CivilInvertsDays(i);
    CivilInvertsDays(j);
    var s0, t0 := TimeOfDay(s % SECONDS_A_DAY), TimeOfDay(t % SECONDS_A_DAY);
    TimeOfDayOrder(s % SECONDS_A_DAY, t % SECONDS_A_DAY);
    SeparatorOrder('T', s0, t0);
    var s1, t1 := Padded(a.day, 2) + ("T" + s0), Padded(b.day, 2) + ("T" + t0);
    FieldOrder(a.day, b.day, 2, "T" + s0, "T" + t0);
    SeparatorOrder('-', s1, t1);
    var s2, t2 := Padded(a.month, 2) + ("-" + s1), Padded(b.month, 2) + ("-" + t1);
    FieldOrder(a.month, b.month, 2, "-" + s1, "-" + t1);
    SeparatorOrder('-', s2, t2);
    FieldOrder(a.year, b.year, 4, "-" + s2, "-" + t2);
    CivilOrdersDays(i, j);
    assert a == b ==> i == j;
  }

  /**
   A payment list may compare the timestamps taken over some period as strings exactly as long as the
   clock has not passed the year 9999: one second later the string is longer and sorts before that year.
   */
  lemma SortingLimit(since: int, clock: int)
    requires IsFourDigit(since) && since <= clock
    ensures (forall s, t :: since <= s < t <= clock ==> Less(Rfc3339(s), Rfc3339(t)))
       <==> clock <= LAST_FOUR_DIGIT_SECOND
  {
    if clock <= LAST_FOUR_DIGIT_SECOND {
      forall s, t | since <= s < t <= clock ensures Less(Rfc3339(s), Rfc3339(t)) {
        StringsSortAsInstants(s, t);
      }
    } else {
      YearTenThousandSortsFirst();
    }
  }

  lemma YearTenThousandSortsFirst()
    ensures !Less(Rfc3339(LAST_FOUR_DIGIT_SECOND), Rfc3339(LAST_FOUR_DIGIT_SECOND + 1))
  {
    hide CivilFromDays, TimeOfDay;
    FourDigitYears(0);
    assert Digits(9) == "9" && Digits(1) == "1";
    assert Digits(99) == "99" && Digits(10) == "10";
    assert Digits(999) == "999" && Digits(100) == "100";
    assert Digits(9999)[0] == '9' && Digits(1000) == "1000" && Digits(10000)[0] == '1';
    assert Rfc3339(LAST_FOUR_DIGIT_SECOND)[0] == '9' && Rfc3339(LAST_FOUR_DIGIT_SECOND + 1)[0] == '1';
  }
}
