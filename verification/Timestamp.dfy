/**
 * The expiry text inside the signed payload. Both runtimes count from 0001-01-01T00:00:00 UTC:
 * Python in microseconds, .NET in ticks of 100 nanoseconds.
 */
module Timestamp {
  import opened Common

  // 3,652,059 days run from 0001-01-01 to 9999-12-31; a day is 86,400,000,000 microseconds.
  type Micros = x: int | 0 <= x < 315_537_897_600_000_000
  type Ticks = x: int | 0 <= x < 3_155_378_976_000_000_000

  function ToTicks(us: Micros): Ticks {
    us * 10
  }

  // ---------- the proleptic Gregorian calendar ----------

  predicate IsLeap(year: int) {
    year % 4 == 0 && (year % 100 != 0 || year % 400 == 0)
  }

  function DaysBeforeYear(year: int): int {
    (year - 1) * 365 + (year - 1) / 4 - (year - 1) / 100 + (year - 1) / 400
  }

  /** Days of the year before its month; month 13 gives the length of the year. */
  function DaysBeforeMonth(year: int, month: int): (d: nat)
    requires 1 <= month <= 13
  {
    [0, 31, 59, 90, 120, 151, 181, 212, 243, 273, 304, 334, 365][month - 1]
    + if month > 2 && IsLeap(year) then 1 else 0
  }

  datatype Civil = Civil(year: int, month: int, day: int)

  function DayNumber(c: Civil): int
    requires 1 <= c.month <= 12
  {
    DaysBeforeYear(c.year) + DaysBeforeMonth(c.year, c.month) + c.day - 1
  }

  /** The year that holds day number `n`, by cycles of 400, 100, 4 and 1 years. */
  function YearOf(n: nat): int {
    var r := n % 146_097;
    var centuries := if r / 36_524 == 4 then 3 else r / 36_524;
    var q := r - centuries * 36_524;
    var years := if q % 1461 / 365 == 4 then 3 else q % 1461 / 365;
    n / 146_097 * 400 + centuries * 100 + q / 1461 * 4 + years + 1
  }

  function MonthFrom(year: int, dayOfYear: nat, month: int): (m: int)
    requires 1 <= month <= 12
    requires DaysBeforeMonth(year, month) <= dayOfYear < DaysBeforeMonth(year, 13)
    ensures month <= m <= 12
    ensures DaysBeforeMonth(year, m) <= dayOfYear < DaysBeforeMonth(year, m + 1)
    decreases 12 - month
  {
    if dayOfYear < DaysBeforeMonth(year, month + 1) then month else MonthFrom(year, dayOfYear, month + 1)
  }

  lemma DaysBeforeCycleYear(a: nat, b: nat, c: nat, d: nat)
    requires b <= 3 && c <= 24 && d <= 3
    ensures DaysBeforeYear(400 * a + 100 * b + 4 * c + d + 1) == 146_097 * a + 36_524 * b + 1461 * c + 365 * d
  {
    var y := 400 * a + 100 * b + 4 * c + d;
    assert y / 4 == 100 * a + 25 * b + c;
    assert y / 100 == 4 * a + b;
    assert y / 400 == a;
  }

  /** Day `n` is day `e` of the year `y` cycles on, and only a leap year has a day 365. */
  lemma CyclesOf(n: nat) returns (a: nat, b: nat, c: nat, d: nat, e: nat)
    ensures b <= 3 && c <= 24 && d <= 3
    ensures YearOf(n) == 400 * a + 100 * b + 4 * c + d + 1
    ensures n == 146_097 * a + 36_524 * b + 1461 * c + 365 * d + e
    ensures e < 365 || (e == 365 && d == 3 && (c != 24 || b == 3))
  {
    a := n / 146_097;
    var r := n % 146_097;
    b := if r / 36_524 == 4 then 3 else r / 36_524;
    var q := r - b * 36_524;
    c := q / 1461;
    d := if q % 1461 / 365 == 4 then 3 else q % 1461 / 365;
    e := q % 1461 - d * 365;
  }

  lemma YearHoldsDay(n: nat)
    ensures 1 <= YearOf(n)
    ensures 0 <= n - DaysBeforeYear(YearOf(n)) < DaysBeforeMonth(YearOf(n), 13)
  {
    var a, b, c, d, e := CyclesOf(n);
    DaysBeforeCycleYear(a, b, c, d);
    LeapPosition(a, b, c, d);
  }

  lemma LeapPosition(a: int, b: int, c: int, d: int)
    requires 0 <= b <= 3 && 0 <= c <= 24 && 0 <= d <= 3
    ensures IsLeap(400 * a + 100 * b + 4 * c + d + 1) <==> d == 3 && (c != 24 || b == 3)
  {
    var y := 400 * a + 100 * b + 4 * c + d + 1;
    assert y == 4 * (100 * a + 25 * b + c) + d + 1;
    assert y == 100 * (4 * a + b) + 4 * c + d + 1;
    assert y == 400 * a + (100 * b + 4 * c + d + 1);
  }

  function CivilOf(n: nat): (c: Civil)
    ensures 1 <= c.month <= 12 && 1 <= c.day <= 31 && 1 <= c.year
  {
    YearHoldsDay(n);
    var year := YearOf(n);
    var dayOfYear := n - DaysBeforeYear(year);
    var month := MonthFrom(year, dayOfYear, 1);
    Civil(year, month, dayOfYear - DaysBeforeMonth(year, month) + 1)
  }

  lemma CivilRoundTrip(n: nat)
    ensures DayNumber(CivilOf(n)) == n
  {
    YearHoldsDay(n);
  }

  lemma YearIsInRange(n: nat)
    requires n < 3_652_059
    ensures 1 <= YearOf(n) <= 9999
  {
    YearHoldsDay(n);
  }

  // ---------- the calendar by its own rule ----------

  /** The length of a month. */
  function DaysIn(year: int, month: int): int {
    if month == 2 then (if year % 4 == 0 && (year % 100 != 0 || year % 400 == 0) then 29 else 28)
    else if month == 4 || month == 6 || month == 9 || month == 11 then 30
    else 31
  }

  function NextDate(c: Civil): Civil {
    if c.day < DaysIn(c.year, c.month) then c.(day := c.day + 1)
    else if c.month < 12 then Civil(c.year, c.month + 1, 1)
    else Civil(c.year + 1, 1, 1)
  }

  lemma MonthsAddUp(year: int, month: int)
    requires 1 <= month <= 12
    ensures DaysBeforeMonth(year, month + 1) - DaysBeforeMonth(year, month) == DaysIn(year, month)
    ensures DaysBeforeMonth(year, 1) == 0
  {
  }

  lemma YearsAddUp(year: int)
    ensures DaysBeforeYear(year + 1) - DaysBeforeYear(year) == DaysBeforeMonth(year, 13)
  {
    assert year / 4 - (year - 1) / 4 == if year % 4 == 0 then 1 else 0;
    assert year / 100 - (year - 1) / 100 == if year % 100 == 0 then 1 else 0;
    assert year / 400 - (year - 1) / 400 == if year % 400 == 0 then 1 else 0;
  }

  /** A date of the calendar: its day is one of its month. */
  predicate IsDate(c: Civil) {
    1 <= c.month <= 12 && 1 <= c.day <= DaysIn(c.year, c.month)
  }

  lemma CivilIsDate(n: nat)
    ensures IsDate(CivilOf(n))
  {
    YearHoldsDay(n);
    MonthsAddUp(CivilOf(n).year, CivilOf(n).month);
  }

  lemma DayNumberAdvances(c: Civil)
    requires IsDate(c)
    ensures IsDate(NextDate(c)) && DayNumber(NextDate(c)) == DayNumber(c) + 1
  {
    MonthsAddUp(c.year, c.month);
    YearsAddUp(c.year);
    if c.day == DaysIn(c.year, c.month) && c.month == 12 {
      MonthsAddUp(c.year + 1, 1);
    }
  }

  lemma {:induction false} LaterYearsAreLater(y: int, z: int)
    requires y < z
    ensures DaysBeforeYear(y) + DaysBeforeMonth(y, 13) <= DaysBeforeYear(z)
    decreases z - y
  {
    YearsAddUp(y);
    if y + 1 < z {
      LaterYearsAreLater(y + 1, z);
    }
  }

  lemma {:induction false} LaterMonthsAreLater(year: int, m: int, n: int)
    requires 1 <= m < n <= 13
    ensures DaysBeforeMonth(year, m) + DaysIn(year, m) <= DaysBeforeMonth(year, n)
    decreases n - m
  {
    MonthsAddUp(year, m);
    if m + 1 < n {
      LaterMonthsAreLater(year, m + 1, n);
    }
  }

  lemma DayOfYearBound(c: Civil)
    requires IsDate(c)
    ensures DaysBeforeYear(c.year) <= DayNumber(c) < DaysBeforeYear(c.year) + DaysBeforeMonth(c.year, 13)
  {
    LaterMonthsAreLater(c.year, c.month, 13);
  }

  lemma DatesAreNumbered(c: Civil, d: Civil)
    requires IsDate(c) && IsDate(d) && DayNumber(c) == DayNumber(d)
    ensures c == d
  {
    DayOfYearBound(c);
    DayOfYearBound(d);
    if c.year < d.year {
      LaterYearsAreLater(c.year, d.year);
    } else if d.year < c.year {
      LaterYearsAreLater(d.year, c.year);
    } else if c.month < d.month {
      LaterMonthsAreLater(c.year, c.month, d.month);
    } else if d.month < c.month {
      LaterMonthsAreLater(c.year, d.month, c.month);
    }
  }

  /** Day 0 is 1 January of the year 1, and each day's date is the one after the day before's. */
  lemma CalendarAdvances(n: nat)
    ensures CivilOf(0) == Civil(1, 1, 1)
    ensures CivilOf(n + 1) == NextDate(CivilOf(n))
  {
    hide *;
    CivilRoundTrip(0);
    CivilIsDate(0);
    FirstDay();
    DatesAreNumbered(CivilOf(0), Civil(1, 1, 1));
    CivilRoundTrip(n);
    CivilRoundTrip(n + 1);
    CivilIsDate(n);
    CivilIsDate(n + 1);
    DayNumberAdvances(CivilOf(n));
    DateHasMonth(NextDate(CivilOf(n)));
    DatesAreNumbered(CivilOf(n + 1), NextDate(CivilOf(n)));
  }

  lemma FirstDay()
    ensures IsDate(Civil(1, 1, 1)) && DayNumber(Civil(1, 1, 1)) == 0
  {
  }

  lemma DateHasMonth(c: Civil)
    requires IsDate(c)
    ensures 1 <= c.month <= 12
  {
  }

  // ---------- decimal digits ----------

  function Pow10(w: nat): (p: nat)
    ensures p >= 1
  {
    if w == 0 then 1 else 10 * Pow10(w - 1)
  }

  function Digit(d: int): char
    requires 0 <= d <= 9
  {
    ('0' as int + d) as char
  }

  /** The last `w` decimal digits of `n`, zero-padded. */
  function Digits(n: nat, w: nat): (t: string)
    ensures |t| == w
  {
    if w == 0 then "" else Digits(n / 10, w - 1) + [Digit(n % 10)]
  }

  function Value(t: string): int {
    if t == "" then 0 else Value(t[..|t| - 1]) * 10 + (t[|t| - 1] as int - '0' as int)
  }

  lemma {:induction false} ValueOfDigits(n: nat, w: nat)
    requires n < Pow10(w)
    ensures Value(Digits(n, w)) == n
  {
    if w > 0 {
      ValueOfDigits(n / 10, w - 1);
      assert Digits(n, w)[..w - 1] == Digits(n / 10, w - 1);
    }
  }

  // ---------- the two formatters ----------

  /** A UTC instant broken into its date, its second of the day and the ticks of that second. */
  datatype Clock = Clock(date: Civil, second: int, fraction: int) {
    predicate Valid() {
      && 0 <= date.year <= 9999 && 1 <= date.month <= 12 && 1 <= date.day <= 31
      && 0 <= second < 86_400 && 0 <= fraction < 10_000_000
    }
  }

  function ClockOf(ticks: Ticks): (k: Clock)
    ensures k.Valid()
  {
    YearIsInRange(ticks / 864_000_000_000);
    Clock(CivilOf(ticks / 864_000_000_000), ticks % 864_000_000_000 / 10_000_000, ticks % 10_000_000)
  }

  function DateText(yearText: string, month: nat, day: nat): (t: string)
    ensures |t| == |yearText| + 6
  {
    yearText + "-" + Digits(month, 2) + "-" + Digits(day, 2)
  }

  function TimeText(second: nat): (t: string)
    ensures |t| == 8
  {
    Digits(second / 3600, 2) + ":" + Digits(second / 60 % 60, 2) + ":" + Digits(second % 60, 2)
  }

  /** `strftime("%Y")` of a runtime that leaves it to glibc: no padding below the year 1000. */
  function PythonYear(year: nat): string {
    if year < 10 then Digits(year, 1)
    else if year < 100 then Digits(year, 2)
    else if year < 1000 then Digits(year, 3)
    else Digits(year, 4)
  }

  /** The date and time fields of an aware Python `datetime` in UTC; the fraction is its microsecond field. */
  function PythonClock(us: Micros): (k: Clock)
    ensures k.Valid() && k.fraction < 1_000_000
  {
    YearIsInRange(us / 86_400_000_000);
    Clock(CivilOf(us / 86_400_000_000), us % 86_400_000_000 / 1_000_000, us % 1_000_000)
  }

  function PythonClockText(k: Clock): string
    requires k.Valid()
  {
    DateText(PythonYear(k.date.year), k.date.month, k.date.day) + "T" + TimeText(k.second)
    + "." + Digits(k.fraction, 6) + "0+00:00"
  }

  function DotnetClockText(k: Clock): (t: string)
    requires k.Valid()
    ensures |t| == 33
  {
    DateText(Digits(k.date.year, 4), k.date.month, k.date.day) + "T" + TimeText(k.second)
    + "." + Digits(k.fraction, 7) + "+00:00"
  }

  function PythonText(us: Micros): string {
    PythonClockText(PythonClock(us))
  }

  /** `DateTimeOffset.ToString("O")` of a UTC instant: four-digit year, seven fractional digits. */
  function DotnetText(ticks: Ticks): (t: string)
    ensures |t| == 33
  {
    DotnetClockText(ClockOf(ticks))
  }

  function YearOfMicros(us: Micros): (y: int)
    ensures 1 <= y <= 9999
  {
    YearIsInRange(us / 86_400_000_000);
    PythonClock(us).date.year
  }

  datatype TimeError = NaiveDatetime | OutOfRange

  /** A Python `datetime`: wall-clock microseconds, and the UTC offset unless it is naive. */
  datatype PythonDatetime = PythonDatetime(wall: int, offset: Option<int>)

  function UtcOf(dt: PythonDatetime): Result<Micros, TimeError> {
    if dt.offset.None? then Err(NaiveDatetime)
    else if 0 <= dt.wall - dt.offset.value < 315_537_897_600_000_000 then Ok(dt.wall - dt.offset.value)
    else Err(OutOfRange)
  }

  function FormatDotnetRoundTrip(dt: PythonDatetime): Result<string, TimeError> {
    match UtcOf(dt)
    case Ok(us) => Ok(PythonText(us))
    case Err(e) => Err(e)
  }

  // ---------- decoding ----------

  /** Reads back a 33-character text, field by field. */
  function ReadClock(t: string): Clock
    requires |t| == 33
  {
    Clock(Civil(Value(t[..4]), Value(t[5..7]), Value(t[8..10])),
          Value(t[11..13]) * 3600 + Value(t[14..16]) * 60 + Value(t[17..19]),
          Value(t[20..27]))
  }

  function TicksOf(k: Clock): int
    requires 1 <= k.date.month <= 12
  {
    (DayNumber(k.date) * 86_400 + k.second) * 10_000_000 + k.fraction
  }

  function Instant(t: string): Option<int> {
    if |t| == 33 && 1 <= ReadClock(t).date.month <= 12 then Some(TicksOf(ReadClock(t))) else None
  }

  lemma ValueOfTwoDigits(n: nat)
    requires n < 100
    ensures Value(Digits(n, 2)) == n
  {
    assert Pow10(2) == 10 * Pow10(1) && Pow10(1) == 10;
    ValueOfDigits(n, 2);
  }

  lemma ValueOfLongDigits(year: nat, fraction: nat)
    requires year < 10_000 && fraction < 10_000_000
    ensures Value(Digits(year, 4)) == year && Value(Digits(fraction, 7)) == fraction
  {
    assert Pow10(7) == 1000 * Pow10(4) && Pow10(4) == 10_000;
    ValueOfDigits(year, 4);
    ValueOfDigits(fraction, 7);
  }

  lemma SecondsSplit(second: nat)
    ensures second / 3600 * 3600 + second / 60 % 60 * 60 + second % 60 == second
  {
    assert second / 60 / 60 == second / 3600;
  }

  lemma ReadDate(t: string, year: nat, month: nat, day: nat)
    requires year < 10_000 && month < 100 && day < 100 && t == DateText(Digits(year, 4), month, day)
    ensures Value(t[..4]) == year && Value(t[5..7]) == month && Value(t[8..10]) == day
  {
    ValueOfLongDigits(year, 0);
    ValueOfTwoDigits(month);
    ValueOfTwoDigits(day);
    assert t[..4] == Digits(year, 4) && t[5..7] == Digits(month, 2) && t[8..10] == Digits(day, 2);
  }

  lemma ReadTime(t: string, second: nat)
    requires second < 86_400 && t == TimeText(second)
    ensures Value(t[..2]) * 3600 + Value(t[3..5]) * 60 + Value(t[6..8]) == second
  {
    ValueOfTwoDigits(second / 3600);
    ValueOfTwoDigits(second / 60 % 60);
    ValueOfTwoDigits(second % 60);
    SecondsSplit(second);
    assert t[..2] == Digits(second / 3600, 2) && t[3..5] == Digits(second / 60 % 60, 2);
    assert t[6..8] == Digits(second % 60, 2);
  }

  lemma SliceOfParts(d: string, c: string, f: string)
    requires |d| == 10 && |c| == 8 && |f| == 7
    ensures var t := d + "T" + c + "." + f + "+00:00";
            && |t| == 33
            && t[..4] == d[..4] && t[5..7] == d[5..7] && t[8..10] == d[8..10]
            && t[11..13] == c[..2] && t[14..16] == c[3..5] && t[17..19] == c[6..8]
            && t[20..27] == f
  {
  }

  lemma ClockTextReadsBack(k: Clock)
    requires k.Valid()
    ensures ReadClock(DotnetClockText(k)) == k
  {
    var d := DateText(Digits(k.date.year, 4), k.date.month, k.date.day);
    ReadDate(d, k.date.year, k.date.month, k.date.day);
    ReadTime(TimeText(k.second), k.second);
    ValueOfLongDigits(0, k.fraction);
    SliceOfParts(d, TimeText(k.second), Digits(k.fraction, 7));
  }

  lemma TicksSplit(ticks: nat)
    ensures var day, second := ticks / 864_000_000_000, ticks % 864_000_000_000 / 10_000_000;
            (day * 86_400 + second) * 10_000_000 + ticks % 10_000_000 == ticks
  {
    var day, rest := ticks / 864_000_000_000, ticks % 864_000_000_000;
    var z := ticks / 10_000_000 - 86_400 * day - rest / 10_000_000;
    assert 10_000_000 * z == rest % 10_000_000 - ticks % 10_000_000;
    assert z == 0;
  }

  lemma TicksOfClock(ticks: Ticks)
    ensures TicksOf(ClockOf(ticks)) == ticks
  {
    CivilRoundTrip(ticks / 864_000_000_000);
    TicksSplit(ticks);
  }

  lemma InstantUndoesDotnetText(ticks: Ticks)
    ensures Instant(DotnetText(ticks)) == Some(ticks)
  {
    ClockTextReadsBack(ClockOf(ticks));
    TicksOfClock(ticks);
  }

  lemma PythonTextLength(k: Clock)
    requires k.Valid()
    ensures |PythonClockText(k)| == 33 <==> k.date.year >= 1000
  {
  }

  lemma SameDay(us: nat)
    ensures us * 10 / 864_000_000_000 == us / 86_400_000_000
    ensures us * 10 % 864_000_000_000 == us % 86_400_000_000 * 10
  {
  }

  lemma SameSecond(us: nat)
    ensures us * 10 / 10_000_000 == us / 1_000_000
    ensures us * 10 % 10_000_000 == us % 1_000_000 * 10
  {
  }

  lemma SameClock(us: Micros)
    ensures var k := PythonClock(us); ClockOf(ToTicks(us)) == k.(fraction := k.fraction * 10)
  {
    SameDay(us);
    SameSecond(us);
    SameSecond(us % 86_400_000_000);
  }

  lemma ClockTextsAgree(k: Clock)
    requires k.Valid() && k.fraction < 1_000_000
    ensures PythonClockText(k) == DotnetClockText(k.(fraction := k.fraction * 10)) <==> k.date.year >= 1000
  {
    PythonTextLength(k);
    var f := k.fraction;
    assert f * 10 / 10 == f && f * 10 % 10 == 0;
    assert Digits(f * 10, 7) == Digits(f, 6) + "0";
    var head := DateText(Digits(k.date.year, 4), k.date.month, k.date.day) + "T" + TimeText(k.second) + ".";
    assert head + Digits(f, 6) + "0+00:00" == head + Digits(f * 10, 7) + "+00:00";
  }

  /** On whole microseconds both runtimes write the same text, from the year 1000 on and only then. */
  lemma TextsAgree(us: Micros)
    ensures PythonText(us) == DotnetText(ToTicks(us)) <==> YearOfMicros(us) >= 1000
  {
    SameClock(us);
    ClockTextsAgree(PythonClock(us));
  }

  /** At the first instant of the year 1 the two texts differ, as at every instant before the year 1000. */
  lemma TextsDifferInYearOne()
    ensures PythonText(0) != DotnetText(ToTicks(0))
  {
    assert YearOf(0) == 1;
    TextsAgree(0);
  }

  /** A text the agent rebuilds equals a text the backend signed only for the same instant. */
  lemma EqualTextsAreOneInstant(us: Micros, ticks: Ticks)
    requires PythonText(us) == DotnetText(ticks)
    ensures ticks == ToTicks(us) && YearOfMicros(us) >= 1000
  {
    PythonTextLength(PythonClock(us));
    TextsAgree(us);
    InstantUndoesDotnetText(ticks);
    InstantUndoesDotnetText(ToTicks(us));
  }

  // ---------- the shape of the text ----------

  predicate IsDigitText(t: string) {
    forall i :: 0 <= i < |t| ==> '0' <= t[i] <= '9'
  }

  lemma {:induction false} DigitsAreDigits(n: nat, w: nat)
    ensures IsDigitText(Digits(n, w))
  {
    if w > 0 {
      DigitsAreDigits(n / 10, w - 1);
    }
  }

  /** yyyy-MM-ddTHH:mm:ss.fffffff+00:00, the form section 5.6 of RFC 3339 calls date-time. */
  predicate HasRoundTripShape(t: string) {
    && |t| == 33
    && IsDigitText(t[..4]) && t[4] == '-' && IsDigitText(t[5..7]) && t[7] == '-' && IsDigitText(t[8..10])
    && t[10] == 'T'
    && IsDigitText(t[11..13]) && t[13] == ':' && IsDigitText(t[14..16]) && t[16] == ':' && IsDigitText(t[17..19])
    && t[19] == '.' && IsDigitText(t[20..27]) && t[27..] == "+00:00"
  }

  /** The date, the time of day and the ticks of the second stand in their places of the text. */
  lemma DotnetTextShows(ticks: Ticks)
    ensures HasRoundTripShape(DotnetText(ticks))
    ensures var t, day, rest := DotnetText(ticks), ticks / 864_000_000_000, ticks % 864_000_000_000;
            && Civil(Value(t[..4]), Value(t[5..7]), Value(t[8..10])) == CivilOf(day)
            && (Value(t[11..13]) * 3600 + Value(t[14..16]) * 60 + Value(t[17..19])) * 10_000_000 + Value(t[20..27])
               == rest
  {
    var k := ClockOf(ticks);
    TextHasShape(k);
    ClockTextReadsBack(k);
    assert ReadClock(DotnetText(ticks)) == k;
    TimeOfDaySplit(ticks);
  }

  lemma TimeOfDaySplit(ticks: nat)
    ensures ticks % 864_000_000_000 / 10_000_000 * 10_000_000 + ticks % 10_000_000 == ticks % 864_000_000_000
  {
    TicksSplit(ticks);
  }

  lemma TextHasShape(k: Clock)
    requires k.Valid()
    ensures HasRoundTripShape(DotnetClockText(k))
  {
    var year, month, day := Digits(k.date.year, 4), Digits(k.date.month, 2), Digits(k.date.day, 2);
    var hour, minute, second := Digits(k.second / 3600, 2), Digits(k.second / 60 % 60, 2), Digits(k.second % 60, 2);
    var fraction := Digits(k.fraction, 7);
    DigitsAreDigits(k.date.year, 4);
    DigitsAreDigits(k.date.month, 2);
    DigitsAreDigits(k.date.day, 2);
    DigitsAreDigits(k.second / 3600, 2);
    DigitsAreDigits(k.second / 60 % 60, 2);
    DigitsAreDigits(k.second % 60, 2);
    DigitsAreDigits(k.fraction, 7);
    DateAndTimeShape(year, month, day, hour, minute, second, fraction);
  }

  lemma DateAndTimeShape(
      year: string, month: string, day: string, hour: string, minute: string, second: string, fraction: string)
    requires |year| == 4 && |month| == 2 && |day| == 2 && |hour| == 2 && |minute| == 2 && |second| == 2
    requires |fraction| == 7 && IsDigitText(year) && IsDigitText(month) && IsDigitText(day)
    requires IsDigitText(hour) && IsDigitText(minute) && IsDigitText(second) && IsDigitText(fraction)
    ensures HasRoundTripShape(
              year + "-" + month + "-" + day + "T" + (hour + ":" + minute + ":" + second) + "." + fraction + "+00:00")
  {
    hide IsDigitText;
    var d := year + "-" + month + "-" + day;
    var c := hour + ":" + minute + ":" + second;
    SliceOfParts(d, c, fraction);
    var t := d + "T" + c + "." + fraction + "+00:00";
    assert d[..4] == year && d[5..7] == month && d[8..10] == day;
    assert c[..2] == hour && c[3..5] == minute && c[6..8] == second;
    assert t[27..] == "+00:00";
  }

  /** The unpadded year: its decimal digits and no leading zero. */
  lemma PythonYearIsUnpadded(year: nat)
    requires 1 <= year <= 9999
    ensures var t := PythonYear(year);
            && |t| == (if year < 10 then 1 else if year < 100 then 2 else if year < 1000 then 3 else 4)
            && IsDigitText(t) && Value(t) == year
  {
    assert Pow10(4) == 10 * Pow10(3) && Pow10(3) == 10 * Pow10(2) && Pow10(2) == 10 * Pow10(1) && Pow10(1) == 10;
    var w := if year < 10 then 1 else if year < 100 then 2 else if year < 1000 then 3 else 4;
    DigitsAreDigits(year, w);
    ValueOfDigits(year, w);
  }

  /** The UTC instant of a datetime: its wall clock less its offset. A naive one has none. */
  lemma UtcOfIff(dt: PythonDatetime, us: Micros)
    ensures UtcOf(dt) == Ok(us) <==> dt.offset.Some? && us + dt.offset.value == dt.wall
    ensures UtcOf(dt) == Err(NaiveDatetime) <==> dt.offset.None?
  {
  }
}
