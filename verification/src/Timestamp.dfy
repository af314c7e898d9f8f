/** Log timestamps: `YYYY-MM-DD HH:MM:SS` in UTC, for every 64-bit nanosecond count. */
module Timestamp {
  import opened Options
  import opened Calendar
  import opened Decimal

  const I64_MIN: int := -0x8000_0000_0000_0000
  const I64_MAX: int := 0x7FFF_FFFF_FFFF_FFFF
  const NANOS := 1_000_000_000
  const DAY := 86_400

  // ---- decimal formatting ----

  function Zeros(k: nat): (s: string)
    ensures |s| == k
  {
    if k == 0 then "" else Zeros(k - 1) + "0"
  }

  /** Zero-padded to at least `width` characters, the sign included. */
  function ZeroPadded(n: int, width: nat): string
  {
    var sign := if n < 0 then "-" else "";
    var body := Numeral(if n < 0 then -n else n);
    sign + (if |sign| + |body| < width then Zeros(width - |sign| - |body|) else "") + body
  }

  function Format(nanos: int): string
  {
    var seconds := nanos / NANOS;
    var ofDay := seconds % DAY;
    var d := CivilFromDays(seconds / DAY);
    ZeroPadded(d.year, 4) + "-" + ZeroPadded(d.month, 2) + "-" + ZeroPadded(d.day, 2) + " "
    + ZeroPadded(ofDay / 3600, 2) + ":" + ZeroPadded(ofDay % 3600 / 60, 2) + ":" + ZeroPadded(ofDay % 60, 2)
  }

  // ---- reading it back ----

  /** Seconds from the epoch to a time of day on a date. */
  function SecondsAt(d: Date, hour: nat, minute: nat, second: nat): int
    requires IsDate(d)
  {
    DAY * DayNumber(d) + 3600 * hour + 60 * minute + second
  }

  /** The second a timestamp names, if it is one. */
  function Parse(s: string): Option<int>
  {
    if |s| == 19 && s[4] == '-' && s[7] == '-' && s[10] == ' ' && s[13] == ':' && s[16] == ':'
    then ParseParts(s[..4], s[5..7], s[8..10], s[11..13], s[14..16], s[17..])
    else None
  }

  function ParseParts(year: string, month: string, day: string,
                      hour: string, minute: string, second: string): Option<int>
  {
    if
      && AllDigits(year) && AllDigits(month) && AllDigits(day)
      && AllDigits(hour) && AllDigits(minute) && AllDigits(second)
    then
      var d := Date(Value(year), Value(month), Value(day));
      if IsDate(d) && Value(hour) < 24 && Value(minute) < 60 && Value(second) < 60
      then Some(SecondsAt(d, Value(hour), Value(minute), Value(second)))
      else None
    else None
  }

  // ---- fixed-width fields ----

  function Pow10(w: nat): nat
  {
    if w == 0 then 1 else 10 * Pow10(w - 1)
  }

  /** The last `w` decimal digits of a number. */
  function Field(n: nat, w: nat): (s: string)
    ensures |s| == w && AllDigits(s)
  {
    if w == 0 then "" else Field(n / 10, w - 1) + [Digit(n % 10)]
  }

  lemma {:induction false} FieldOfZero(w: nat)
    ensures Field(0, w) == Zeros(w)
  {
    if w > 0 { FieldOfZero(w - 1); }
  }

  lemma {:induction false} FieldIsPadded(n: nat, w: nat)
    requires w >= 1 && n < Pow10(w)
    ensures |Numeral(n)| <= w && Field(n, w) == Zeros(w - |Numeral(n)|) + Numeral(n)
    decreases w
  {
    if n < 10 {
      FieldOfZero(w - 1);
    } else {
      FieldIsPadded(n / 10, w - 1);
    }
  }

  lemma {:induction false} PaddedIsField(n: nat, w: nat)
    requires w >= 1 && n < Pow10(w)
    ensures ZeroPadded(n, w) == Field(n, w)
  {
    FieldIsPadded(n, w);
  }

  lemma {:induction false} FieldValue(n: nat, w: nat)
    requires n < Pow10(w)
    ensures Value(Field(n, w)) == n
    decreases w
  {
    if w > 0 {
      FieldValue(n / 10, w - 1);
      assert Field(n, w)[..w - 1] == Field(n / 10, w - 1);
    }
  }

  // ---- the moment a count falls on ----

  datatype Moment = Moment(date: Date, hour: nat, minute: nat, second: nat)

  function MomentOf(nanos: int): Moment
  {
    var seconds := nanos / NANOS;
    var ofDay := seconds % DAY;
    Moment(CivilFromDays(seconds / DAY), ofDay / 3600, ofDay % 3600 / 60, ofDay % 60)
  }

  predicate Readable(m: Moment)
  {
    IsDate(m.date) && 0 <= m.date.year <= 9999 && m.hour < 24 && m.minute < 60 && m.second < 60
  }

  function Seconds(m: Moment): int
    requires Readable(m)
  {
    SecondsAt(m.date, m.hour, m.minute, m.second)
  }

  function Print(m: Moment): string
    requires Readable(m)
  {
    Field(m.date.year, 4) + "-" + Field(m.date.month, 2) + "-" + Field(m.date.day, 2) + " "
    + Field(m.hour, 2) + ":" + Field(m.minute, 2) + ":" + Field(m.second, 2)
  }

  /** A 64-bit nanosecond count lies in the years 1677 to 2262, so four digits do. */
  lemma MomentReadable(nanos: int)
    requires I64_MIN <= nanos <= I64_MAX
    ensures Readable(MomentOf(nanos)) && Seconds(MomentOf(nanos)) == nanos / NANOS
    ensures 1677 <= MomentOf(nanos).date.year <= 2262
  {
    var seconds := nanos / NANOS;
    CivilCounts(seconds / DAY);
    YearInRange(MomentOf(nanos).date);
    SplitDay(seconds % DAY);
  }

  lemma SplitDay(ofDay: int)
    requires 0 <= ofDay < DAY
    ensures 0 <= ofDay / 3600 < 24 && 0 <= ofDay % 3600 / 60 < 60 && 0 <= ofDay % 60 < 60
    ensures ofDay == 3600 * (ofDay / 3600) + 60 * (ofDay % 3600 / 60) + ofDay % 60
  {
  }

  lemma YearInRange(d: Date)
    requires IsDate(d) && -106_752 <= DayNumber(d) <= 106_751
    ensures 1677 <= d.year <= 2262
  {
    MonthStartBound(d.year, d.month);
    YearStartClosed(1677);
    YearStartClosed(2263);
    if d.year < 1677 { YearsAscend(d.year, 1677); }
    if d.year > 2263 { YearsAscend(2263, d.year); }
  }

  lemma FormatPrints(nanos: int)
    requires I64_MIN <= nanos <= I64_MAX
    ensures Readable(MomentOf(nanos)) && Format(nanos) == Print(MomentOf(nanos))
  {
    MomentReadable(nanos);
    var m := MomentOf(nanos);
    PaddedIsField(m.date.year, 4);
    PaddedIsField(m.date.month, 2);
    PaddedIsField(m.date.day, 2);
    PaddedIsField(m.hour, 2);
    PaddedIsField(m.minute, 2);
    PaddedIsField(m.second, 2);
  }

  lemma PrintSlices(m: Moment)
    requires Readable(m)
    ensures |Print(m)| == 19 && Parse(Print(m)) ==
      ParseParts(Field(m.date.year, 4), Field(m.date.month, 2), Field(m.date.day, 2),
                 Field(m.hour, 2), Field(m.minute, 2), Field(m.second, 2))
  {
    hide Field, ParseParts;
    var s := Print(m);
    assert s[..4] == Field(m.date.year, 4) && s[5..7] == Field(m.date.month, 2) && s[8..10] == Field(m.date.day, 2);
    assert s[11..13] == Field(m.hour, 2) && s[14..16] == Field(m.minute, 2) && s[17..] == Field(m.second, 2);
  }

  lemma PartsParse(m: Moment, year: string, month: string, day: string, hour: string, minute: string, second: string)
    requires Readable(m)
    requires AllDigits(year) && Value(year) == m.date.year
    requires AllDigits(month) && Value(month) == m.date.month
    requires AllDigits(day) && Value(day) == m.date.day
    requires AllDigits(hour) && Value(hour) == m.hour
    requires AllDigits(minute) && Value(minute) == m.minute
    requires AllDigits(second) && Value(second) == m.second
    ensures ParseParts(year, month, day, hour, minute, second) == Some(Seconds(m))
  {
  }

  lemma PrintParses(m: Moment)
    requires Readable(m)
    ensures |Print(m)| == 19 && Parse(Print(m)) == Some(Seconds(m))
  {
    assert Pow10(2) == 100 && Pow10(4) == 10_000;
    hide Field, Value, Pow10, DayNumber, MonthLength, Print, Parse, ParseParts, Seconds;
    PrintSlices(m);
    FieldValue(m.date.year, 4);
    FieldValue(m.date.month, 2);
    FieldValue(m.date.day, 2);
    FieldValue(m.hour, 2);
    FieldValue(m.minute, 2);
    FieldValue(m.second, 2);
    PartsParse(m, Field(m.date.year, 4), Field(m.date.month, 2), Field(m.date.day, 2),
               Field(m.hour, 2), Field(m.minute, 2), Field(m.second, 2));
  }

  /** Every 64-bit count formats to 19 characters that read back as its second, rounded down. */
  lemma FormatRoundTrips(nanos: int)
    requires I64_MIN <= nanos <= I64_MAX
    ensures |Format(nanos)| == 19 && Parse(Format(nanos)) == Some(nanos / NANOS)
  {
    FormatPrints(nanos);
    MomentReadable(nanos);
    PrintParses(MomentOf(nanos));
  }

  /** The text itself: `YYYY-MM-DD HH:MM:SS` with the calendar date and the clock time of the second. */
  lemma FormatLayout(nanos: int)
    requires I64_MIN <= nanos <= I64_MAX
    ensures var s := Format(nanos);
      && |s| == 19 && s[4] == '-' && s[7] == '-' && s[10] == ' ' && s[13] == ':' && s[16] == ':'
      && AllDigits(s[0..4]) && AllDigits(s[5..7]) && AllDigits(s[8..10])
      && AllDigits(s[11..13]) && AllDigits(s[14..16]) && AllDigits(s[17..19])
      && var d := Date(Value(s[0..4]), Value(s[5..7]), Value(s[8..10]));
        && IsDate(d) && Value(s[11..13]) < 24 && Value(s[14..16]) < 60 && Value(s[17..19]) < 60
        && 86_400 * DayNumber(d) + 3_600 * Value(s[11..13]) + 60 * Value(s[14..16]) + Value(s[17..19])
             == nanos / 1_000_000_000
  {
    FormatPrints(nanos);
    MomentReadable(nanos);
    LayoutOf(MomentOf(nanos));
  }

  lemma LayoutOf(m: Moment)
    requires Readable(m)
    ensures var s := Print(m);
      && |s| == 19 && s[4] == '-' && s[7] == '-' && s[10] == ' ' && s[13] == ':' && s[16] == ':'
      && AllDigits(s[0..4]) && AllDigits(s[5..7]) && AllDigits(s[8..10])
      && AllDigits(s[11..13]) && AllDigits(s[14..16]) && AllDigits(s[17..19])
      && Value(s[0..4]) == m.date.year && Value(s[5..7]) == m.date.month && Value(s[8..10]) == m.date.day
      && Value(s[11..13]) == m.hour && Value(s[14..16]) == m.minute && Value(s[17..19]) == m.second
  {
    assert Pow10(2) == 100 && Pow10(4) == 10_000;
    hide Field, Value, Pow10, DayNumber, MonthLength, Print;
    PrintedFields(m);
    FieldValue(m.date.year, 4);
    FieldValue(m.date.month, 2);
    FieldValue(m.date.day, 2);
    FieldValue(m.hour, 2);
    FieldValue(m.minute, 2);
    FieldValue(m.second, 2);
  }

  lemma PrintedFields(m: Moment)
    requires Readable(m)
    ensures var s := Print(m);
      && |s| == 19 && s[4] == '-' && s[7] == '-' && s[10] == ' ' && s[13] == ':' && s[16] == ':'
      && s[0..4] == Field(m.date.year, 4) && s[5..7] == Field(m.date.month, 2) && s[8..10] == Field(m.date.day, 2)
      && s[11..13] == Field(m.hour, 2) && s[14..16] == Field(m.minute, 2) && s[17..19] == Field(m.second, 2)
  {
    hide Field, DayNumber, MonthLength;
  }

  // ---- string order is time order ----

  predicate Less(a: string, b: string)
  {
    if b == "" then false
    else if a == "" then true
    else if a[0] != b[0] then a[0] < b[0]
    else Less(a[1..], b[1..])
  }

  lemma {:induction false} LessExtends(a: string, b: string, u: string, v: string)
    requires |a| == |b| && Less(a, b)
    ensures Less(a + u, b + v)
    decreases |a|
  {
    assert (a + u)[1..] == a[1..] + u && (b + v)[1..] == b[1..] + v;
    if a[0] == b[0] { LessExtends(a[1..], b[1..], u, v); }
  }

  lemma {:induction false} LessBehind(a: string, u: string, v: string)
    requires Less(u, v)
    ensures Less(a + u, a + v)
    decreases |a|
  {
    if a == "" {
      assert a + u == u && a + v == v;
    } else {
      assert (a + u)[1..] == a[1..] + u && (a + v)[1..] == a[1..] + v;
      LessBehind(a[1..], u, v);
    }
  }

  lemma {:induction false} FieldsAscend(m: nat, n: nat, w: nat)
    requires m < n < Pow10(w)
    ensures Less(Field(m, w), Field(n, w))
    decreases w
  {
    if m / 10 < n / 10 {
      FieldsAscend(m / 10, n / 10, w - 1);
      LessExtends(Field(m / 10, w - 1), Field(n / 10, w - 1), [Digit(m % 10)], [Digit(n % 10)]);
    } else {
      LessBehind(Field(m / 10, w - 1), [Digit(m % 10)], [Digit(n % 10)]);
    }
  }

  /** The clock time within a day, as printed. */
  function PrintClock(m: Moment): string
    requires Readable(m)
  {
    " " + Field(m.hour, 2) + ":" + Field(m.minute, 2) + ":" + Field(m.second, 2)
  }

  function PrintDate(d: Date): string
    requires IsDate(d) && 0 <= d.year <= 9999
  {
    Field(d.year, 4) + "-" + Field(d.month, 2) + "-" + Field(d.day, 2)
  }

  lemma DatesAscend(a: Date, b: Date)
    requires IsDate(a) && IsDate(b) && 0 <= a.year <= 9999 && 0 <= b.year <= 9999 && Before(a, b)
    ensures Less(PrintDate(a), PrintDate(b))
  {
    assert Pow10(4) == 10_000;
    hide Field, Less, Pow10;
    var ra := "-" + (Field(a.month, 2) + ("-" + Field(a.day, 2)));
    var rb := "-" + (Field(b.month, 2) + ("-" + Field(b.day, 2)));
    DateShape(a);
    DateShape(b);
    if a.year == b.year {
      TwoFieldsAscend(a.month, a.day, b.month, b.day, "-");
    }
    FieldFirst(4, a.year, ra, b.year, rb);
  }

  /** A field followed by something else, the field weighing more. */
  lemma FieldFirst(w: nat, m: nat, u: string, n: nat, v: string)
    requires m < Pow10(w) && n < Pow10(w) && (m < n || (m == n && Less(u, v)))
    ensures Less(Field(m, w) + u, Field(n, w) + v)
  {
    if m < n {
      FieldsAscend(m, n, w);
      LessExtends(Field(m, w), Field(n, w), u, v);
    } else {
      LessBehind(Field(m, w), u, v);
    }
  }

  /** Two fields after separators, the first one weighing more. */
  lemma TwoFieldsAscend(m: nat, n: nat, p: nat, q: nat, sep: string)
    requires m < 100 && n < 100 && p < 100 && q < 100 && (m < p || (m == p && n < q))
    ensures Less(sep + (Field(m, 2) + (sep + Field(n, 2))), sep + (Field(p, 2) + (sep + Field(q, 2))))
  {
    assert Pow10(2) == 100;
    hide Field, Less, Pow10;
    if m == p {
      FieldsAscend(n, q, 2);
      LessBehind(sep, Field(n, 2), Field(q, 2));
    }
    FieldFirst(2, m, sep + Field(n, 2), p, sep + Field(q, 2));
    LessBehind(sep, Field(m, 2) + (sep + Field(n, 2)), Field(p, 2) + (sep + Field(q, 2)));
  }

  lemma ClockShape(m: Moment)
    requires Readable(m)
    ensures PrintClock(m) == " " + (Field(m.hour, 2) + (":" + (Field(m.minute, 2) + (":" + Field(m.second, 2)))))
  {
    hide Field;
  }

  lemma DateShape(d: Date)
    requires IsDate(d) && 0 <= d.year <= 9999
    ensures PrintDate(d) == Field(d.year, 4) + ("-" + (Field(d.month, 2) + ("-" + Field(d.day, 2))))
  {
    hide Field;
  }

  lemma ClocksAscend(a: Moment, b: Moment)
    requires Readable(a) && Readable(b)
    requires 3600 * a.hour + 60 * a.minute + a.second < 3600 * b.hour + 60 * b.minute + b.second
    ensures Less(PrintClock(a), PrintClock(b))
  {
    assert Pow10(2) == 100;
    hide Field, Less, Pow10;
    var ra := ":" + (Field(a.minute, 2) + (":" + Field(a.second, 2)));
    var rb := ":" + (Field(b.minute, 2) + (":" + Field(b.second, 2)));
    ClockShape(a);
    ClockShape(b);
    if a.hour == b.hour {
      TwoFieldsAscend(a.minute, a.second, b.minute, b.second, ":");
    }
    FieldFirst(2, a.hour, ra, b.hour, rb);
    LessBehind(" ", Field(a.hour, 2) + ra, Field(b.hour, 2) + rb);
  }

  lemma MomentsAscend(a: Moment, b: Moment)
    requires Readable(a) && Readable(b) && Seconds(a) < Seconds(b)
    ensures Less(Print(a), Print(b))
  {
    hide Field, Less, DayNumber, MonthLength;
    assert Print(a) == PrintDate(a.date) + PrintClock(a) && Print(b) == PrintDate(b.date) + PrintClock(b);
    if Before(a.date, b.date) {
      DatesAscend(a.date, b.date);
      LessExtends(PrintDate(a.date), PrintDate(b.date), PrintClock(a), PrintClock(b));
    } else if Before(b.date, a.date) {
      NumbersAscend(b.date, a.date);
      assert false;
    } else {
      ClocksAscend(a, b);
      LessBehind(PrintDate(a.date), PrintClock(a), PrintClock(b));
    }
  }

  /** String order is time order: earlier seconds print smaller, and two counts print alike exactly
      when they lie within one second. */
  lemma FormatOrders(a: int, b: int)
    requires I64_MIN <= a <= I64_MAX && I64_MIN <= b <= I64_MAX
    ensures Less(Format(a), Format(b)) <==> a / NANOS < b / NANOS
    ensures Format(a) == Format(b) <==> a / NANOS == b / NANOS
  {
    FormatRoundTrips(a);
    FormatRoundTrips(b);
    FormatPrints(a);
    FormatPrints(b);
    MomentReadable(a);
    MomentReadable(b);
    if a / NANOS < b / NANOS {
      MomentsAscend(MomentOf(a), MomentOf(b));
    } else if b / NANOS < a / NANOS {
      MomentsAscend(MomentOf(b), MomentOf(a));
      LessAsymmetric(Format(b), Format(a));
    } else {
      LessIrreflexive(Format(a));
    }
  }

  lemma {:induction false} LessAsymmetric(a: string, b: string)
    requires Less(a, b)
    ensures !Less(b, a)
    decreases |a|
  {
    if a != "" && a[0] == b[0] { LessAsymmetric(a[1..], b[1..]); }
  }

  lemma {:induction false} LessIrreflexive(a: string)
    ensures !Less(a, a)
    decreases |a|
  {
    if a != "" { LessIrreflexive(a[1..]); }
  }
}
