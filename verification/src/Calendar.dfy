/** Proleptic-Gregorian dates from day counts: the closed form against plain calendar counting. */
module Calendar {
  datatype Date = Date(year: int, month: int, day: int)

  // ---- the reference calendar ----

  predicate IsLeap(y: int)
  {
    y % 4 == 0 && (y % 100 != 0 || y % 400 == 0)
  }

  function YearLength(y: int): int
  {
    if IsLeap(y) then 366 else 365
  }

  function MonthLength(y: int, m: int): int
  {
    if m == 2 then (if IsLeap(y) then 29 else 28)
    else if m == 4 || m == 6 || m == 9 || m == 11 then 30
    else 31
  }

  predicate IsDate(d: Date)
  {
    1 <= d.month <= 12 && 1 <= d.day <= MonthLength(d.year, d.month)
  }

  /** Days from 1970-01-01 to the first day of a year, counted year by year. */
  function YearStart(y: int): int
    decreases if y >= 1970 then y - 1970 else 1970 - y
  {
    if y == 1970 then 0
    else if y > 1970 then YearStart(y - 1) + YearLength(y - 1)
    else YearStart(y + 1) - YearLength(y)
  }

  /** Days from the first day of a year to the first day of a month, counted month by month. */
  function MonthStart(y: int, m: int): int
    requires 1 <= m <= 12
    decreases m
  {
    if m == 1 then 0 else MonthStart(y, m - 1) + MonthLength(y, m - 1)
  }

  /** The day number of a date. */
  function DayNumber(d: Date): int
    requires IsDate(d)
  {
    YearStart(d.year) + MonthStart(d.year, d.month) + d.day - 1
  }

  /** The calendar successor of a date. */
  function NextDay(d: Date): (n: Date)
    requires IsDate(d)
    ensures IsDate(n)
  {
    if d.day < MonthLength(d.year, d.month) then d.(day := d.day + 1)
    else if d.month < 12 then Date(d.year, d.month + 1, 1)
    else Date(d.year + 1, 1, 1)
  }

  function PreviousDay(d: Date): (p: Date)
    requires IsDate(d)
    ensures IsDate(p)
  {
    if d.day > 1 then d.(day := d.day - 1)
    else if d.month > 1 then Date(d.year, d.month - 1, MonthLength(d.year, d.month - 1))
    else Date(d.year - 1, 12, 31)
  }

  /** Stepping one day at a time from 1970-01-01, forwards or backwards. */
  function StepTo(z: int): (d: Date)
    ensures IsDate(d)
    decreases if z >= 0 then z else -z
  {
    if z == 0 then Date(1970, 1, 1)
    else if z > 0 then NextDay(StepTo(z - 1))
    else PreviousDay(StepTo(z + 1))
  }

  // ---- the closed form ----

  function CivilFromDays(days: int): Date
  {
    var z := days + 719_468;
    var era := z / 146_097;
    var doe := z % 146_097;
    var yoe := YearOfEra(doe);
    var y := yoe + era * 400;
    var doy := doe - (365 * yoe + yoe / 4 - yoe / 100);
    var mp := (5 * doy + 2) / 153;
    var day := doy - (153 * mp + 2) / 5 + 1;
    var month := if mp < 10 then mp + 3 else mp - 9;
    Date(if month <= 2 then y + 1 else y, month, day)
  }

  function YearOfEra(doe: int): int
  {
    (doe - doe / 1460 + doe / 36_524 - doe / 146_096) / 365
  }

  // ---- years, in closed form ----

  /** Leap years before the year after `y`, so that March-based years start after their leap day. */
  function Leaps(y: int): int
  {
    y / 4 - y / 100 + y / 400
  }

  /** Leap years in terms of an era of 400 years and a year in it. */
  lemma EraLeaps(era: int, yoe: int)
    requires 0 <= yoe < 400
    ensures Leaps(yoe + era * 400) == 97 * era + yoe / 4 - yoe / 100
  {
    DivShift(yoe, 100 * era, 4);
    DivShift(yoe, 4 * era, 100);
    DivShift(yoe, era, 400);
  }

  lemma DivShift(x: int, k: int, d: int)
    requires d > 0
    ensures (x + k * d) / d == x / d + k && (x + k * d) % d == x % d
  {
    var q, r := x / d, x % d;
    assert x + k * d == (q + k) * d + r;
    DivUnique(x + k * d, d, q + k, r);
  }

  lemma DivUnique(x: int, d: int, q: int, r: int)
    requires d > 0 && x == q * d + r && 0 <= r < d
    ensures x / d == q && x % d == r
  {
    var e := x / d - q;
    assert e * d == r - x % d;
    assert e >= 1 ==> e * d >= d;
    assert e <= -1 ==> e * d <= -d;
  }

  lemma EraIsLeap(era: int, yoe: int)
    ensures IsLeap(yoe + era * 400) <==> IsLeap(yoe)
  {
    DivShift(yoe, 100 * era, 4);
    DivShift(yoe, 4 * era, 100);
    DivShift(yoe, era, 400);
  }

  lemma LeapsStep(y: int)
    ensures Leaps(y) == Leaps(y - 1) + if IsLeap(y) then 1 else 0
  {
    var era, yoe := y / 400, y % 400;
    EraLeaps(era, yoe);
    EraIsLeap(era, yoe);
    if yoe > 0 {
      EraLeaps(era, yoe - 1);
      LeapsInEra(yoe);
    } else {
      EraLeaps(era - 1, 399);
    }
    hide Leaps, IsLeap;
  }

  lemma LeapsInEra(yoe: int)
    requires 0 < yoe < 400
    ensures yoe / 4 - yoe / 100 == (yoe - 1) / 4 - (yoe - 1) / 100 + if IsLeap(yoe) then 1 else 0
  {
    DivPred(yoe, 4);
    DivPred(yoe, 100);
    if yoe % 100 == 0 { DivUnique(yoe, 4, 25 * (yoe / 100), 0); }
  }

  lemma DivPred(x: int, d: int)
    requires d > 1
    ensures (x - 1) / d == x / d - if x % d == 0 then 1 else 0
  {
    var q, r := x / d, x % d;
    if r == 0 { DivUnique(x - 1, d, q - 1, d - 1); } else { DivUnique(x - 1, d, q, r - 1); }
  }

  lemma {:induction false} YearStartClosed(y: int)
    ensures YearStart(y) == 365 * (y - 1970) + Leaps(y - 1) - 477
    decreases if y >= 1970 then y - 1970 else 1970 - y
  {
    if y > 1970 {
      YearStartClosed(y - 1);
      LeapsStep(y - 1);
    } else if y < 1970 {
      YearStartClosed(y + 1);
      LeapsStep(y);
    }
  }

  // ---- years within an era of 400 ----

  /** Days of an era before its March-based year `yoe`. */
  function EraYearStart(yoe: int): int
  {
    365 * yoe + yoe / 4 - yoe / 100
  }

  /** An era-year as century, four-year block and remainder. */
  lemma Split(yoe: int) returns (c: int, f: int, r: int)
    requires 0 <= yoe < 400
    ensures yoe == 100 * c + 4 * f + r && 0 <= c <= 3 && 0 <= f <= 24 && 0 <= r <= 3
    ensures EraYearStart(yoe) == 36_524 * c + 1_461 * f + 365 * r
  {
    c := yoe / 100;
    f := (yoe % 100) / 4;
    r := yoe % 4;
    assert yoe / 4 == 25 * c + f;
  }

  /** The last year of an era is a day longer than the era's start formula says. */
  function EraYearEnd(yoe: int): int
  {
    if yoe == 399 then 146_097 else EraYearStart(yoe + 1)
  }

  /** The year formula finds the year a day of the era falls into. */
  lemma YearOfEraIs(doe: int, yoe: int)
    requires 0 <= yoe < 400 && EraYearStart(yoe) <= doe < EraYearEnd(yoe)
    ensures YearOfEra(doe) == yoe
  {
    var c, f, r := Split(yoe);
    var doy := doe - EraYearStart(yoe);
    SplitYear(doe, c, f, r, doy);
  }

  /** A March-based year has 366 days only if it ends in a leap day. */
  lemma DayOfYearBound(yoe: int, c: int, f: int, r: int)
    requires yoe == 100 * c + 4 * f + r && 0 <= c <= 3 && 0 <= f <= 24 && 0 <= r <= 3
    ensures EraYearEnd(yoe) - EraYearStart(yoe) == if r == 3 && (f < 24 || c == 3) then 366 else 365
  {
    if yoe < 399 {
      assert (yoe + 1) / 100 == c + if r == 3 && f == 24 then 1 else 0;
    }
  }

  lemma SplitYear(doe: int, c: int, f: int, r: int, doy: int)
    requires 0 <= c <= 3 && 0 <= f <= 24 && 0 <= r <= 3
    requires 0 <= doy < if r == 3 && (f < 24 || c == 3) then 366 else 365
    requires doe == 36_524 * c + 1_461 * f + 365 * r + doy
    ensures YearOfEra(doe) == 100 * c + 4 * f + r
  {
    var rest := 24 * c + f + 365 * r + doy;
    assert doe / 1460 == 25 * c + f + if rest >= 1460 then 1 else 0;
    assert doe / 146_096 == if doe >= 146_096 then 1 else 0;
  }

  lemma {:induction false} FindYear(doe: int, yoe: int) returns (y: int)
    requires 0 <= yoe < 400 && 0 <= doe < EraYearEnd(yoe)
    ensures 0 <= y < 400 && EraYearStart(y) <= doe < EraYearEnd(y)
    decreases yoe
  {
    if EraYearStart(yoe) <= doe {
      y := yoe;
    } else {
      y := FindYear(doe, yoe - 1);
    }
  }

  // ---- months within a March-based year ----

  /** Days of a March-based year before its month `mp`, March being 0. */
  function MarchStart(mp: int): int
  {
    (153 * mp + 2) / 5
  }

  /** The month formula finds the month a day of the year falls into. */
  lemma MonthOfYear(doy: int)
    requires 0 <= doy <= 365
    ensures var mp := (5 * doy + 2) / 153;
      0 <= mp <= 11 && MarchStart(mp) <= doy && (mp < 11 ==> doy < MarchStart(mp + 1))
  {
  }

  /** Month starts from March, against counting month by month from January. */
  lemma MonthStarts(y: int, mp: int)
    requires 0 <= mp <= 11
    ensures mp < 10 ==> MonthStart(y, mp + 3) == MarchStart(mp) + 59 + if IsLeap(y) then 1 else 0
    ensures mp >= 10 ==> MonthStart(y, mp - 9) == MarchStart(mp) - 306
    ensures mp < 11 ==> MarchStart(mp + 1) - MarchStart(mp) == MonthLength(y, if mp < 10 then mp + 3 else mp - 9)
  {
    hide MonthStart, MarchStart;
    MonthTable(y);
    MarchTable();
  }

  lemma MonthTable(y: int)
    ensures var leap := if IsLeap(y) then 1 else 0;
      && MonthStart(y, 1) == 0 && MonthStart(y, 2) == 31 && MonthStart(y, 3) == 59 + leap
      && MonthStart(y, 4) == 90 + leap && MonthStart(y, 5) == 120 + leap && MonthStart(y, 6) == 151 + leap
      && MonthStart(y, 7) == 181 + leap && MonthStart(y, 8) == 212 + leap && MonthStart(y, 9) == 243 + leap
      && MonthStart(y, 10) == 273 + leap && MonthStart(y, 11) == 304 + leap && MonthStart(y, 12) == 334 + leap
  {
    hide IsLeap;
  }

  lemma MarchTable()
    ensures MarchStart(0) == 0 && MarchStart(1) == 31 && MarchStart(2) == 61 && MarchStart(3) == 92
    ensures MarchStart(4) == 122 && MarchStart(5) == 153 && MarchStart(6) == 184 && MarchStart(7) == 214
    ensures MarchStart(8) == 245 && MarchStart(9) == 275 && MarchStart(10) == 306 && MarchStart(11) == 337
  {
  }

  // ---- the closed form is right ----

  /** Every day number has a valid date, and counting days to that date gives it back. */
  lemma CivilCounts(z: int)
    ensures IsDate(CivilFromDays(z)) && DayNumber(CivilFromDays(z)) == z
  {
    var era, doe := (z + 719_468) / 146_097, (z + 719_468) % 146_097;
    var yoe := FindYear(doe, 399);
    YearOfEraIs(doe, yoe);
    hide YearOfEra;
    var doy := doe - EraYearStart(yoe);
    assert CivilFromDays(z) == FromMarch(yoe + era * 400, doy);
    FromMarchCounts(era, yoe, doy);
  }

  /** The date of a day of the March-based year `y`. */
  function FromMarch(y: int, doy: int): Date
  {
    var mp := (5 * doy + 2) / 153;
    Date(if mp < 10 then y else y + 1, if mp < 10 then mp + 3 else mp - 9, doy - MarchStart(mp) + 1)
  }

  lemma FromMarchCounts(era: int, yoe: int, doy: int)
    requires 0 <= yoe < 400 && 0 <= doy < EraYearEnd(yoe) - EraYearStart(yoe)
    ensures var d := FromMarch(yoe + era * 400, doy);
      IsDate(d) && DayNumber(d) == 146_097 * era + EraYearStart(yoe) + doy - 719_468
  {
    var c, f, r := Split(yoe);
    DayOfYearBound(yoe, c, f, r);
    EraYearIsLeap(era, yoe, c, f, r);
    MonthOfYear(doy);
    var y := yoe + era * 400;
    EraLeaps(era, yoe);
    FromMarchNumber(y, doy);
  }

  /** Counting from March of year `y`; the year's last month, February, is a leap one or not. */
  lemma FromMarchNumber(y: int, doy: int)
    requires 0 <= doy < if IsLeap(y + 1) then 366 else 365
    ensures var d := FromMarch(y, doy); IsDate(d) && DayNumber(d) == 365 * y + Leaps(y) + doy - 719_468
  {
    var mp := (5 * doy + 2) / 153;
    MonthStarts(y, mp);
    MonthStarts(y + 1, mp);
    YearStartClosed(y);
    LeapsStep(y);
    hide IsLeap, Leaps, YearStart, MonthStart;
  }

  lemma EraYearIsLeap(era: int, yoe: int, c: int, f: int, r: int)
    requires yoe == 100 * c + 4 * f + r && 0 <= c <= 3 && 0 <= f <= 24 && 0 <= r <= 3
    ensures IsLeap(yoe + era * 400 + 1) <==> r == 3 && (f < 24 || c == 3)
  {
  }

  // ---- and is the only date with that number ----

  lemma {:induction false} MonthStartBound(y: int, m: int)
    requires 1 <= m <= 12
    ensures 0 <= MonthStart(y, m) && MonthStart(y, m) + MonthLength(y, m) <= YearLength(y)
  {
    MonthsAscend(y, m, 12);
  }

  lemma {:induction false} MonthsAscend(y: int, a: int, b: int)
    requires 1 <= a <= b <= 12
    ensures 0 <= MonthStart(y, a) <= MonthStart(y, b)
    ensures a < b ==> MonthStart(y, a) + MonthLength(y, a) <= MonthStart(y, b)
    decreases b
  {
    if a < b {
      MonthsAscend(y, a, b - 1);
    } else if a > 1 {
      MonthsAscend(y, a - 1, a - 1);
    }
  }

  lemma {:induction false} YearsAscend(a: int, b: int)
    requires a < b
    ensures YearStart(a) + YearLength(a) <= YearStart(b)
    decreases b - a
  {
    if a < b - 1 { YearsAscend(a, b - 1); }
  }

  lemma YearAfter(y: int)
    ensures YearStart(y + 1) == YearStart(y) + YearLength(y)
  {
  }

  /** Earlier dates have smaller numbers. */
  predicate Before(a: Date, b: Date)
  {
    a.year < b.year || (a.year == b.year && (a.month < b.month || (a.month == b.month && a.day < b.day)))
  }

  lemma NumbersAscend(a: Date, b: Date)
    requires IsDate(a) && IsDate(b) && Before(a, b)
    ensures DayNumber(a) < DayNumber(b)
  {
    MonthStartBound(a.year, a.month);
    MonthStartBound(b.year, b.month);
    if a.year < b.year {
      YearsAscend(a.year, b.year);
    } else if a.month < b.month {
      MonthsAscend(a.year, a.month, b.month);
    }
  }

  /** The closed form inverts counting, in both directions: the date of a day number is the only date
      with that number. */
  lemma CivilInvertsCounting(d: Date)
    requires IsDate(d)
    ensures CivilFromDays(DayNumber(d)) == d
  {
    var e := CivilFromDays(DayNumber(d));
    CivilCounts(DayNumber(d));
    if Before(d, e) { NumbersAscend(d, e); }
    if Before(e, d) { NumbersAscend(e, d); }
  }

  lemma NextCounts(d: Date)
    requires IsDate(d)
    ensures DayNumber(NextDay(d)) == DayNumber(d) + 1
  {
    if d.day == MonthLength(d.year, d.month) && d.month == 12 {
      YearAfter(d.year);
    }
  }

  lemma PreviousCounts(d: Date)
    requires IsDate(d)
    ensures DayNumber(PreviousDay(d)) == DayNumber(d) - 1 && NextDay(PreviousDay(d)) == d
  {
    if d.day == 1 && d.month == 1 {
      YearAfter(d.year - 1);
    }
  }

  /** The next day number has the next calendar day. */
  lemma CivilSteps(z: int)
    ensures IsDate(CivilFromDays(z)) && CivilFromDays(z + 1) == NextDay(CivilFromDays(z))
  {
    hide CivilFromDays, NextDay, DayNumber, IsDate;
    CivilCounts(z);
    NextCounts(CivilFromDays(z));
    CivilInvertsCounting(NextDay(CivilFromDays(z)));
  }

  lemma Epoch()
    ensures CivilFromDays(0) == Date(1970, 1, 1)
  {
    assert YearStart(1970) == 0 && MonthStart(1970, 1) == 0;
    CivilInvertsCounting(Date(1970, 1, 1));
  }

  /** For every day number, before the epoch or after, the closed form is day-by-day stepping. */
  lemma {:induction false} CivilIsStepping(z: int)
    ensures CivilFromDays(z) == StepTo(z)
    decreases if z >= 0 then z else -z
  {
    Epoch();
    hide CivilFromDays, NextDay, PreviousDay, DayNumber;
    if z > 0 {
      CivilIsStepping(z - 1);
      CivilSteps(z - 1);
    } else if z < 0 {
      CivilIsStepping(z + 1);
      CivilCounts(z + 1);
      PreviousCounts(StepTo(z + 1));
      CivilInvertsCounting(PreviousDay(StepTo(z + 1)));
    }
  }
}
