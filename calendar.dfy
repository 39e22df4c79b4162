/** Naive wall-clock time as whole seconds since 1970-01-01 00:00:00 on the
    proleptic Gregorian calendar, the calendar parts MongoDB's `$dateToParts`
    and Python's `datetime` expose, and the month arithmetic of
    `dateutil.relativedelta`. */
module Calendar {

  /** Seconds since 1970-01-01 00:00:00 (negative before it). */
  type Timestamp = int

  const SecondsPerMinute: int := 60
  const SecondsPerHour: int := 3600
  const SecondsPerDay: int := 86400

  /** The granularities of a usage-analytics bucket. */
  datatype Slice = Year | Month | Day | Hour | Minute | Second

  /** A bucket key: the leading calendar parts [year, month, day, hour, minute,
      second] that a slice keeps, in that order. */
  type Bucket = seq<int>

  /** How many leading calendar parts a slice keeps. */
  function Depth(slice: Slice): (n: nat)
    ensures 1 <= n <= 6
  {
    match slice
    case Year => 1
    case Month => 2
    case Day => 3
    case Hour => 4
    case Minute => 5
    case Second => 6
  }

  predicate IsLeap(y: int) {
    (y % 4 == 0 && y % 100 != 0) || y % 400 == 0
  }

  function DaysInMonth(y: int, m: int): (n: int)
    ensures 28 <= n <= 31
  {
    if m == 2 then (if IsLeap(y) then 29 else 28)
    else if m == 4 || m == 6 || m == 9 || m == 11 then 30
    else 31
  }

  /** A day that exists on the proleptic Gregorian calendar. */
  predicate ValidDate(y: int, m: int, d: int) {
    1 <= m <= 12 && 1 <= d <= DaysInMonth(y, m)
  }

  lemma ShiftMod4(x: int, k: int)
    ensures (x + 4 * k) % 4 == x % 4
  {
    assert x + 4 * k == 4 * (x / 4 + k) + x % 4;
  }
  lemma ShiftMod100(x: int, k: int)
    ensures (x + 100 * k) % 100 == x % 100
  {
    assert x + 100 * k == 100 * (x / 100 + k) + x % 100;
  }
  lemma ShiftMod400(x: int, k: int)
    ensures (x + 400 * k) % 400 == x % 400
  {
    assert x + 400 * k == 400 * (x / 400 + k) + x % 400;
  }

  lemma LeapEvery400Years(y: int, e: int)
    ensures IsLeap(y + 400 * e) == IsLeap(y)
  {
    ShiftMod4(y, 100 * e);
    ShiftMod100(y, 4 * e);
    ShiftMod400(y, e);
  }
  /* The day counts below follow H. Hinnant's `days_from_civil` and
     `civil_from_days`: years are counted from March, so that the leap day is
     the last day of its year, and grouped into 400-year eras of 146097 days. */

  /** Day of the March-based year of the given month and day. */
  function MarchDay(month: int, day: int): int {
    var mp := if month > 2 then month - 3 else month + 9;
    (153 * mp + 2) / 5 + day - 1
  }

  /** Month and day of the given day of a March-based year. */
  function MonthDay(doy: int): (int, int) {
    var mp := (5 * doy + 2) / 153;
    (if mp < 10 then mp + 3 else mp - 9, doy - (153 * mp + 2) / 5 + 1)
  }

  /** Day of the era of the given day of the given year of the era. */
  function EraDays(yoe: int, doy: int): int {
    365 * yoe + yoe / 4 - yoe / 100 + doy
  }

  /** Year of the era and day of that year of the given day of an era: whole
      centuries, then four-year blocks, then years; the last century of an
      era and the last year of a block are one day longer. */
  function SplitEra(doe: int): (int, int)
    requires 0 <= doe < 146097
  {
    var c := if doe / 36524 < 3 then doe / 36524 else 3;
    var doc := doe - 36524 * c;
    var q := doc / 1461;
    var doq := doc - 1461 * q;
    var r := if doq / 365 < 3 then doq / 365 else 3;
    (100 * c + 4 * q + r, doq - 365 * r)
  }

  lemma MonthDayInverse(doy: int, y: int)
    requires 0 <= doy <= 365 && (doy == 365 ==> IsLeap(y))
    ensures var (m, d) := MonthDay(doy);
      && 1 <= m <= 12 && 1 <= d <= DaysInMonth(y, m)
      && MarchDay(m, d) == doy
      && (m <= 2 <==> doy >= 306)
  {
    var mp := (5 * doy + 2) / 153;
    assert 0 <= mp <= 11;
  }

  lemma MarchDayInverse(m: int, d: int, y: int)
    requires ValidDate(y, m, d)
    ensures 0 <= MarchDay(m, d) <= 365
    ensures MarchDay(m, d) == 365 ==> IsLeap(y)
    ensures MonthDay(MarchDay(m, d)) == (m, d)
    ensures m <= 2 <==> MarchDay(m, d) >= 306
  {
    var mp := if m > 2 then m - 3 else m + 9;
    var start := (153 * mp + 2) / 5;
    var doy := start + d - 1;
    assert (5 * doy + 2) / 153 == mp by {
      if mp == 0 { assert start == 0; }
      else if mp == 1 { assert start == 31; }
      else if mp == 2 { assert start == 61; }
      else if mp == 3 { assert start == 92; }
      else if mp == 4 { assert start == 122; }
      else if mp == 5 { assert start == 153; }
      else if mp == 6 { assert start == 184; }
      else if mp == 7 { assert start == 214; }
      else if mp == 8 { assert start == 245; }
      else if mp == 9 { assert start == 275; }
      else if mp == 10 { assert start == 306; }
      else { assert start == 337; }
    }
  }

  /** The centuries, four-year blocks, years and remaining days `SplitEra`
      finds in a day of an era. */
  lemma SplitEraShape(doe: int) returns (yoe: int, c: int, q: int, r: int, doy: int)
    requires 0 <= doe < 146097
    ensures 0 <= c <= 3 && 0 <= q <= 24 && 0 <= r <= 3 && 0 <= doy <= 365
    ensures yoe == 100 * c + 4 * q + r
    ensures doy == 365 ==> r == 3 && (q == 24 ==> c == 3)
    ensures doe == 36524 * c + 1461 * q + 365 * r + doy
    ensures SplitEra(doe) == (yoe, doy)
  {
    c := if doe / 36524 < 3 then doe / 36524 else 3;
    var doc := doe - 36524 * c;
    q := doc / 1461;
    var doq := doc - 1461 * q;
    r := if doq / 365 < 3 then doq / 365 else 3;
    doy := doq - 365 * r;
    yoe := 100 * c + 4 * q + r;
    assert c < 3 ==> doc < 36524;
    assert 0 <= q <= 24;
  }

  /** Day of the era of a year given as centuries, blocks and years. */
  lemma EraDaysOfParts(yoe: int, c: int, q: int, r: int, doy: int)
    requires 0 <= c <= 3 && 0 <= q <= 24 && 0 <= r <= 3 && yoe == 100 * c + 4 * q + r
    ensures EraDays(yoe, doy) == 36524 * c + 1461 * q + 365 * r + doy
  {
    assert yoe / 4 == 25 * c + q;
    assert yoe / 100 == c;
  }

  /** The March-based years that end on a leap day. */
  lemma LongYearOfParts(yoe: int, c: int, q: int, r: int)
    requires 0 <= c <= 3 && 0 <= q <= 24 && 0 <= r <= 3 && yoe == 100 * c + 4 * q + r
    ensures IsLeap(yoe + 1) <==> r == 3 && (q == 24 ==> c == 3)
  {
    var y := yoe + 1;
    if r == 3 {
      assert y == 4 * (25 * c + q + 1);
      assert y % 4 == 0;
      if q == 24 {
        assert y == 100 * (c + 1);
        assert y % 100 == 0;
        assert y % 400 == 0 <==> c == 3;
      } else {
        assert y == 100 * c + 4 * (q + 1);
        assert y % 100 == 4 * (q + 1);
      }
    } else {
      assert y == 4 * (25 * c + q) + r + 1;
      assert y % 4 == r + 1;
      assert y % 400 != 0;
    }
  }

  /** Centuries, blocks and years of a year of an era. */
  lemma PartsOfYear(yoe: int) returns (c: int, q: int, r: int)
    requires 0 <= yoe < 400
    ensures 0 <= c <= 3 && 0 <= q <= 24 && 0 <= r <= 3
    ensures yoe == 100 * c + 4 * q + r
  {
    c := yoe / 100;
    q := (yoe % 100) / 4;
    r := yoe % 4;
  }

  lemma SplitEraInverse(doe: int)
    requires 0 <= doe < 146097
    ensures var (yoe, doy) := SplitEra(doe);
      && 0 <= yoe < 400 && 0 <= doy <= 365
      && (doy == 365 ==> IsLeap(yoe + 1))
      && EraDays(yoe, doy) == doe
  {
    var yoe, c, q, r, doy := SplitEraShape(doe);
    EraDaysOfParts(yoe, c, q, r, doy);
    LongYearOfParts(yoe, c, q, r);
  }

  lemma SplitEraOfParts(doe: int, yoe: int, c: int, q: int, r: int, doy: int)
    requires 0 <= c <= 3 && 0 <= q <= 24 && 0 <= r <= 3 && 0 <= doy <= 365
    requires doy == 365 ==> r == 3 && (q == 24 ==> c == 3)
    requires yoe == 100 * c + 4 * q + r
    requires doe == 36524 * c + 1461 * q + 365 * r + doy
    ensures 0 <= doe < 146097
    ensures SplitEra(doe) == (yoe, doy)
  {
    var rest := 1461 * q + 365 * r + doy;
    assert c < 3 ==> rest < 36524;
    var c' := if doe / 36524 < 3 then doe / 36524 else 3;
    assert c' == c;
    assert rest / 1461 == q;
    var r' := if (365 * r + doy) / 365 < 3 then (365 * r + doy) / 365 else 3;
    assert r' == r;
  }

  lemma EraDaysInverse(yoe: int, doy: int)
    requires 0 <= yoe < 400 && 0 <= doy <= 365
    requires doy == 365 ==> IsLeap(yoe + 1)
    ensures 0 <= EraDays(yoe, doy) < 146097
    ensures SplitEra(EraDays(yoe, doy)) == (yoe, doy)
  {
    var c, q, r := PartsOfYear(yoe);
    LongYearOfParts(yoe, c, q, r);
    EraDaysOfParts(yoe, c, q, r, doy);
    SplitEraOfParts(EraDays(yoe, doy), yoe, c, q, r, doy);
  }

  /** Year, month and day of the given day of the given 400-year era, the
      era starting on 1 March of year `400 * era`. */
  function CivilOfEra(era: int, doe: int): (date: (int, int, int))
    requires 0 <= doe < 146097
    ensures ValidDate(date.0, date.1, date.2)
  {
    SplitEraInverse(doe);
    var (yoe, doy) := SplitEra(doe);
    LeapEvery400Years(yoe + 1, era);
    MonthDayInverse(doy, yoe + 1 + 400 * era);
    var (m, d) := MonthDay(doy);
    var y := yoe + era * 400;
    (if m <= 2 then y + 1 else y, m, d)
  }

  /** Year, month and day of the given count of days since 1970-01-01. */
  function CivilFromDays(days: int): (date: (int, int, int))
    ensures ValidDate(date.0, date.1, date.2)
  {
    var z := days + 719468;
    CivilOfEra(z / 146097, z % 146097)
  }

  /** Count of days since 1970-01-01 of the given year, month and day. */
  function DaysFromCivil(year: int, month: int, day: int): int {
    var y := if month <= 2 then year - 1 else year;
    (y / 400) * 146097 + EraDays(y % 400, MarchDay(month, day)) - 719468
  }

  /** The day count of a date of a given era, in terms of that era. */
  lemma DaysFromCivilInEra(y: int, m: int, d: int, era: int, yoe: int, doy: int)
    requires 0 <= yoe < 400 && doy == MarchDay(m, d)
    requires y == if m <= 2 then era * 400 + yoe + 1 else era * 400 + yoe
    ensures DaysFromCivil(y, m, d) == era * 146097 + EraDays(yoe, doy) - 719468
  {
    var y' := era * 400 + yoe;
    assert y' / 400 == era && y' % 400 == yoe;
  }

  /** The date of a day count, in terms of its era and day of the era. */
  lemma CivilFromDaysInEra(days: int, era: int, doe: int)
    requires 0 <= doe < 146097 && days + 719468 == era * 146097 + doe
    ensures CivilFromDays(days) == CivilOfEra(era, doe)
  {
    var z := days + 719468;
    assert z / 146097 == era && z % 146097 == doe;
  }

  /** `CivilOfEra` in terms of the year of the era and the day of the year. */
  lemma CivilOfEraParts(era: int, doe: int, yoe: int, doy: int, y: int, m: int, d: int)
    requires 0 <= doe < 146097
    requires SplitEra(doe) == (yoe, doy) && MonthDay(doy) == (m, d)
    requires y == if m <= 2 then era * 400 + yoe + 1 else era * 400 + yoe
    ensures CivilOfEra(era, doe) == (y, m, d)
  {
  }

  lemma CivilOfEraInverse(era: int, doe: int)
    requires 0 <= doe < 146097
    ensures var (y, m, d) := CivilOfEra(era, doe);
      DaysFromCivil(y, m, d) == era * 146097 + doe - 719468
  {
    SplitEraInverse(doe);
    var (yoe, doy) := SplitEra(doe);
    MonthDayInverse(doy, yoe + 1);
    var (m, d) := MonthDay(doy);
    var y := if m <= 2 then era * 400 + yoe + 1 else era * 400 + yoe;
    DaysFromCivilInEra(y, m, d, era, yoe, doy);
    assert DaysFromCivil(y, m, d) == era * 146097 + doe - 719468;
    CivilOfEraParts(era, doe, yoe, doy, y, m, d);
  }

  /** Every day count names a valid date, and that date counts back to it. */
  lemma CivilOfDays(days: int)
    ensures var (y, m, d) := CivilFromDays(days);
      ValidDate(y, m, d) && DaysFromCivil(y, m, d) == days
  {
    var z := days + 719468;
    CivilFromDaysInEra(days, z / 146097, z % 146097);
    CivilOfEraInverse(z / 146097, z % 146097);
  }

  /** Every valid date survives the round trip through its day count. */
  lemma DaysOfCivil(y: int, m: int, d: int)
    requires ValidDate(y, m, d)
    ensures CivilFromDays(DaysFromCivil(y, m, d)) == (y, m, d)
  {
    var y' := if m <= 2 then y - 1 else y;
    var era := y' / 400;
    var yoe := y' % 400;
    MarchDayInverse(m, d, y);
    var doy := MarchDay(m, d);
    LeapEvery400Years(yoe + 1, era);
    EraDaysInverse(yoe, doy);
    var doe := EraDays(yoe, doy);
    DaysFromCivilInEra(y, m, d, era, yoe, doy);
    CivilFromDaysInEra(DaysFromCivil(y, m, d), era, doe);
    CivilOfEraParts(era, doe, yoe, doy, y, m, d);
  }

  /** Hour, minute and second of a second of the day. */
  function Clock(sod: int): (hms: (int, int, int))
    requires 0 <= sod < SecondsPerDay
    ensures 0 <= hms.0 < 24 && 0 <= hms.1 < 60 && 0 <= hms.2 < 60
    ensures hms.0 * SecondsPerHour + hms.1 * SecondsPerMinute + hms.2 == sod
  {
    (sod / SecondsPerHour, (sod % SecondsPerHour) / SecondsPerMinute, sod % SecondsPerMinute)
  }

  /** The six calendar parts of a timestamp, as `$dateToParts` and `datetime`
      report them: the date of its day and its time of day. */
  function Parts(t: Timestamp): (p: seq<int>)
    ensures |p| == 6
    ensures var date := CivilFromDays(t / SecondsPerDay);
      p[0] == date.0 && p[1] == date.1 && p[2] == date.2
    ensures 0 <= p[3] < 24 && 0 <= p[4] < 60 && 0 <= p[5] < 60
    ensures p[3] * SecondsPerHour + p[4] * SecondsPerMinute + p[5] == t % SecondsPerDay
  {
    var date := CivilFromDays(t / SecondsPerDay);
    var hms := Clock(t % SecondsPerDay);
    [date.0, date.1, date.2, hms.0, hms.1, hms.2]
  }

  /** The calendar parts of a timestamp give the timestamp back. */
  lemma PartsRoundTrip(t: Timestamp)
    ensures var p := Parts(t);
      ValidDate(p[0], p[1], p[2])
      && t == DaysFromCivil(p[0], p[1], p[2]) * SecondsPerDay
              + p[3] * SecondsPerHour + p[4] * SecondsPerMinute + p[5]
  {
    CivilOfDays(t / SecondsPerDay);
  }

  /** The bucket a timestamp falls into at the given granularity. */
  function Truncate(t: Timestamp, slice: Slice): (b: Bucket)
    ensures |b| == Depth(slice)
    ensures forall j :: 0 <= j < |b| ==> b[j] == Parts(t)[j]
  {
    Parts(t)[..Depth(slice)]
  }

  function Min(a: int, b: int): int {
    if a <= b then a else b
  }

  /** The day count `k` months on from the given date, on the same day of the
      month or on the last day of the target month when that is shorter. */
  function ShiftMonths(y: int, m: int, d: int, k: int): int {
    var i := 12 * y + m - 1 + k;
    DaysFromCivil(i / 12, i % 12 + 1, Min(d, DaysInMonth(i / 12, i % 12 + 1)))
  }

  /** The target of a month step: a valid date in the month `k` months on. */
  lemma ShiftMonthsTarget(y: int, m: int, d: int, k: int) returns (y2: int, m2: int, d2: int)
    requires ValidDate(y, m, d)
    ensures ValidDate(y2, m2, d2) && 12 * y2 + m2 == 12 * y + m + k && d2 == Min(d, DaysInMonth(y2, m2))
    ensures ShiftMonths(y, m, d, k) == DaysFromCivil(y2, m2, d2)
  {
    var i := 12 * y + m - 1 + k;
    y2, m2 := i / 12, i % 12 + 1;
    d2 := Min(d, DaysInMonth(y2, m2));
  }

  /** A month step lands `k` months on, on the same day of the month or on
      the last day of a shorter month. */
  lemma ShiftMonthsLands(y: int, m: int, d: int, k: int)
    requires ValidDate(y, m, d)
    ensures var (y2, m2, d2) := CivilFromDays(ShiftMonths(y, m, d, k));
      12 * y2 + m2 == 12 * y + m + k && d2 == Min(d, DaysInMonth(y2, m2))
  {
    var y2, m2, d2 := ShiftMonthsTarget(y, m, d, k);
    DaysOfCivil(y2, m2, d2);
  }

  /** The day count `k` months on from the given day count. */
  function StepDays(days: int, k: int): int {
    var date := CivilFromDays(days);
    ShiftMonths(date.0, date.1, date.2, k)
  }

  /** A month step from a day lands `k` months on, on the same day of the
      month or on the last day of a shorter month. */
  lemma StepDaysLands(days: int, k: int)
    ensures var (y, m, d) := CivilFromDays(days);
      var (y2, m2, d2) := CivilFromDays(StepDays(days, k));
      12 * y2 + m2 == 12 * y + m + k && d2 == Min(d, DaysInMonth(y2, m2))
  {
    var date := CivilFromDays(days);
    ShiftMonthsLands(date.0, date.1, date.2, k);
  }

  /** `t + relativedelta(months=k)`: calendar month stepping that keeps the time
      of day and clamps the day to the length of the target month. */
  function AddMonths(t: Timestamp, k: int): (r: Timestamp)
    ensures r / SecondsPerDay == StepDays(t / SecondsPerDay, k)
    ensures r % SecondsPerDay == t % SecondsPerDay
  {
    StepDays(t / SecondsPerDay, k) * SecondsPerDay + t % SecondsPerDay
  }

  /** The first day of the March-based year `y`. */
  function YearStart(y: int): int {
    DaysFromCivil(y, 3, 1)
  }

  /** A March-based year has 366 days when the following February has 29. */
  lemma YearLength(y: int)
    ensures YearStart(y + 1) - YearStart(y) == if IsLeap(y + 1) then 366 else 365
  {
    var era, yoe := y / 400, y % 400;
    var c, q, r := PartsOfYear(yoe);
    EraDaysOfParts(yoe, c, q, r, 0);
    LongYearOfParts(yoe, c, q, r);
    LeapEvery400Years(yoe + 1, era);
    DaysFromCivilInEra(y, 3, 1, era, yoe, 0);
    if yoe < 399 {
      var c2, q2, r2 := PartsOfYear(yoe + 1);
      EraDaysOfParts(yoe + 1, c2, q2, r2, 0);
      DaysFromCivilInEra(y + 1, 3, 1, era, yoe + 1, 0);
      if r < 3 {
        assert c2 == c && q2 == q && r2 == r + 1;
      } else if q < 24 {
        assert c2 == c && q2 == q + 1 && r2 == 0;
      } else {
        assert c2 == c + 1 && q2 == 0 && r2 == 0;
      }
    } else {
      DaysFromCivilInEra(y + 1, 3, 1, era + 1, 0, 0);
    }
  }

  /** March-based years start in order. */
  lemma YearStartMonotone(a: int, b: int)
    requires a <= b
    ensures YearStart(a) <= YearStart(b)
    decreases b - a
  {
    if a < b {
      YearLength(b - 1);
      YearStartMonotone(a, b - 1);
    }
  }

  /** The year a date's March-based year starts in. */
  function MarchYear(y: int, m: int): int {
    if m <= 2 then y - 1 else y
  }

  /** A day count is the start of its March-based year plus the day of that year. */
  lemma DaysFromMarch(y: int, m: int, d: int)
    ensures DaysFromCivil(y, m, d) == YearStart(MarchYear(y, m)) + MarchDay(m, d)
  {
    var year := MarchYear(y, m);
    var era, yoe := year / 400, year % 400;
    DaysFromCivilInEra(y, m, d, era, yoe, MarchDay(m, d));
    DaysFromCivilInEra(year, 3, 1, era, yoe, 0);
  }

  /** Months counted from March: March is 0, February 11. */
  function MarchMonth(m: int): int {
    if m > 2 then m - 3 else m + 9
  }

  /** Every month but February has the same length each year, and the next
      month of a March-based year starts right after it. */
  lemma NextMonthStart(m: int, y: int)
    requires 1 <= m <= 12 && m != 2
    ensures (153 * (MarchMonth(m) + 1) + 2) / 5 == (153 * MarchMonth(m) + 2) / 5 + DaysInMonth(y, m)
  {
  }

  /** Within one March-based year a later month starts on a later day. */
  lemma MarchDayOrder(y1: int, m1: int, d1: int, y2: int, m2: int, d2: int)
    requires ValidDate(y1, m1, d1) && ValidDate(y2, m2, d2)
    requires MarchMonth(m1) < MarchMonth(m2)
    ensures MarchDay(m1, d1) < MarchDay(m2, d2)
  {
    NextMonthStart(m1, y1);
    var next := 153 * (MarchMonth(m1) + 1) + 2;
    assert next <= 153 * MarchMonth(m2) + 2;
    assert next / 5 <= (153 * MarchMonth(m2) + 2) / 5;
  }

  /** A date in a later month has a larger day count. */
  lemma CivilOrder(y1: int, m1: int, d1: int, y2: int, m2: int, d2: int)
    requires ValidDate(y1, m1, d1) && ValidDate(y2, m2, d2)
    requires 12 * y1 + m1 < 12 * y2 + m2
    ensures DaysFromCivil(y1, m1, d1) < DaysFromCivil(y2, m2, d2)
  {
    var a, b := MarchYear(y1, m1), MarchYear(y2, m2);
    assert 12 * a + MarchMonth(m1) < 12 * b + MarchMonth(m2);
    DaysFromMarch(y1, m1, d1);
    DaysFromMarch(y2, m2, d2);
    if a == b {
      MarchDayOrder(y1, m1, d1, y2, m2, d2);
    } else {
      assert MarchDay(m1, d1) < YearStart(a + 1) - YearStart(a) by {
        MarchDayInverse(m1, d1, y1);
        assert IsLeap(y1) ==> m1 > 2 || y1 == a + 1;
        YearLength(a);
      }
      assert YearStart(b) <= DaysFromCivil(y2, m2, d2) by {
        MarchDayInverse(m2, d2, y2);
      }
      assert YearStart(a + 1) <= YearStart(b) by {
        YearStartMonotone(a + 1, b);
      }
    }
  }

  /** The month of a day count, as twelve times the year plus the month. */
  function MonthIndex(days: int): int {
    var date := CivilFromDays(days);
    12 * date.0 + date.1
  }

  /** Later days never fall in earlier months. */
  lemma MonthIndexMonotone(a: int, b: int)
    requires a <= b
    ensures MonthIndex(a) <= MonthIndex(b)
  {
    var (y1, m1, d1) := CivilFromDays(a);
    var (y2, m2, d2) := CivilFromDays(b);
    CivilOfDays(a);
    CivilOfDays(b);
    if 12 * y2 + m2 < 12 * y1 + m1 {
      CivilOrder(y2, m2, d2, y1, m1, d1);
    }
  }

  /** Stepping `k` months moves the month number by exactly `k`. */
  lemma AddMonthsIndex(t: Timestamp, k: int)
    ensures MonthIndex(AddMonths(t, k) / SecondsPerDay) == MonthIndex(t / SecondsPerDay) + k
  {
    StepDaysLands(t / SecondsPerDay, k);
  }

  /** An instant in an earlier month is earlier. */
  lemma EarlierMonthEarlier(s: Timestamp, t: Timestamp)
    requires MonthIndex(s / SecondsPerDay) < MonthIndex(t / SecondsPerDay)
    ensures s < t
  {
    if t <= s {
      MonthIndexMonotone(t / SecondsPerDay, s / SecondsPerDay);
    }
  }

  /** The difference of the month numbers of two instants: relativedelta's
      `(y2 - y1) * 12 + (m2 - m1)`. */
  function NaiveMonths(from: Timestamp, to: Timestamp): int {
    MonthIndex(to / SecondsPerDay) - MonthIndex(from / SecondsPerDay)
  }

  /** The whole number of calendar months `relativedelta(to, from)` finds between
      the two instants: the naive difference of year-month indices, pulled back
      by one when stepping that far from `from` overshoots `to`. relativedelta
      repeats the correction in a loop; `TotalMonthsBracket` shows that one step
      already ends it. */
  function TotalMonths(from: Timestamp, to: Timestamp): int {
    var naive := NaiveMonths(from, to);
    if to < from then
      (if to > AddMonths(from, naive) then naive + 1 else naive)
    else
      (if to < AddMonths(from, naive) then naive - 1 else naive)
  }

  /** A month count below the naive one starts before `to`. */
  lemma BelowNaive(from: Timestamp, to: Timestamp, k: int)
    requires k < NaiveMonths(from, to)
    ensures AddMonths(from, k) < to
  {
    AddMonthsIndex(from, k);
    EarlierMonthEarlier(AddMonths(from, k), to);
  }

  /** A month count above the naive one starts after `to`. */
  lemma AboveNaive(from: Timestamp, to: Timestamp, k: int)
    requires k > NaiveMonths(from, to)
    ensures to < AddMonths(from, k)
  {
    AddMonthsIndex(from, k);
    EarlierMonthEarlier(to, AddMonths(from, k));
  }

  /** Equal month counts step to the same instant. */
  lemma SameStep(t: Timestamp, j: int, k: int)
    requires j == k
    ensures AddMonths(t, j) == AddMonths(t, k)
  {
  }

  /** Going forwards, when the naive count overshoots `to`, the corrected count does not. */
  lemma ForwardOvershootLow(from: Timestamp, to: Timestamp)
    ensures from <= to && to < AddMonths(from, NaiveMonths(from, to)) ==>
      AddMonths(from, TotalMonths(from, to)) < to
  {
    if from <= to && to < AddMonths(from, NaiveMonths(from, to)) {
      BelowNaive(from, to, TotalMonths(from, to));
    }
  }

  /** Going forwards, when the naive count overshoots `to`, one month more than the corrected count does. */
  lemma ForwardOvershootHigh(from: Timestamp, to: Timestamp)
    ensures from <= to && to < AddMonths(from, NaiveMonths(from, to)) ==>
      to < AddMonths(from, TotalMonths(from, to) + 1)
  {
    if from <= to && to < AddMonths(from, NaiveMonths(from, to)) {
      SameStep(from, TotalMonths(from, to) + 1, NaiveMonths(from, to));
    }
  }

  /** Going forwards, when the naive count does not overshoot `to`, it is the corrected count. */
  lemma ForwardNaiveLow(from: Timestamp, to: Timestamp)
    ensures from <= to && to >= AddMonths(from, NaiveMonths(from, to)) ==>
      AddMonths(from, TotalMonths(from, to)) <= to
  {
    if from <= to && to >= AddMonths(from, NaiveMonths(from, to)) {
      SameStep(from, TotalMonths(from, to), NaiveMonths(from, to));
    }
  }

  /** Going forwards, when the naive count does not overshoot `to`, one month more does. */
  lemma ForwardNaiveHigh(from: Timestamp, to: Timestamp)
    ensures from <= to && to >= AddMonths(from, NaiveMonths(from, to)) ==>
      to < AddMonths(from, TotalMonths(from, to) + 1)
  {
    if from <= to && to >= AddMonths(from, NaiveMonths(from, to)) {
      AboveNaive(from, to, TotalMonths(from, to) + 1);
    }
  }

  /** Going backwards, when the naive count overshoots `to`, one month further back than the corrected count does too. */
  lemma BackwardOvershootLow(from: Timestamp, to: Timestamp)
    ensures to < from && to > AddMonths(from, NaiveMonths(from, to)) ==>
      AddMonths(from, TotalMonths(from, to) - 1) < to
  {
    if to < from && to > AddMonths(from, NaiveMonths(from, to)) {
      SameStep(from, TotalMonths(from, to) - 1, NaiveMonths(from, to));
    }
  }

  /** Going backwards, when the naive count overshoots `to`, the corrected count does not. */
  lemma BackwardOvershootHigh(from: Timestamp, to: Timestamp)
    ensures to < from && to > AddMonths(from, NaiveMonths(from, to)) ==>
      to < AddMonths(from, TotalMonths(from, to))
  {
    if to < from && to > AddMonths(from, NaiveMonths(from, to)) {
      AboveNaive(from, to, TotalMonths(from, to));
    }
  }

  /** Going backwards, when the naive count does not overshoot `to`, one month further back does. */
  lemma BackwardNaiveLow(from: Timestamp, to: Timestamp)
    ensures to < from && to <= AddMonths(from, NaiveMonths(from, to)) ==>
      AddMonths(from, TotalMonths(from, to) - 1) < to
  {
    if to < from && to <= AddMonths(from, NaiveMonths(from, to)) {
      BelowNaive(from, to, TotalMonths(from, to) - 1);
    }
  }

  /** Going backwards, when the naive count does not overshoot `to`, it is the corrected count. */
  lemma BackwardNaiveHigh(from: Timestamp, to: Timestamp)
    ensures to < from && to <= AddMonths(from, NaiveMonths(from, to)) ==>
      to <= AddMonths(from, TotalMonths(from, to))
  {
    if to < from && to <= AddMonths(from, NaiveMonths(from, to)) {
      SameStep(from, TotalMonths(from, to), NaiveMonths(from, to));
    }
  }

  /** The corrected count brackets `to`: stepping that many months from `from`
      does not pass `to`, and one more month (one fewer, going backwards) would.
      So relativedelta's correction loop stops after at most one step. */
  lemma TotalMonthsBracket(from: Timestamp, to: Timestamp)
    ensures from <= to ==>
      AddMonths(from, TotalMonths(from, to)) <= to < AddMonths(from, TotalMonths(from, to) + 1)
    ensures to < from ==>
      AddMonths(from, TotalMonths(from, to) - 1) < to <= AddMonths(from, TotalMonths(from, to))
  {
    ForwardOvershootLow(from, to);
    ForwardOvershootHigh(from, to);
    ForwardNaiveLow(from, to);
    ForwardNaiveHigh(from, to);
    BackwardOvershootLow(from, to);
    BackwardOvershootHigh(from, to);
    BackwardNaiveLow(from, to);
    BackwardNaiveHigh(from, to);
  }

  /** Stepping no months keeps the instant. */
  lemma AddNoMonths(t: Timestamp)
    ensures AddMonths(t, 0) == t
  {
    var days := t / SecondsPerDay;
    var (y, m, d) := CivilFromDays(days);
    CivilOfDays(days);
    var y2, m2, d2 := ShiftMonthsTarget(y, m, d, 0);
    assert y2 == y && m2 == m && d2 == d;
    assert StepDays(days, 0) == days;
  }

  /** Going forwards the corrected count is never negative. */
  lemma TotalMonthsNonNegative(from: Timestamp, to: Timestamp)
    ensures from <= to ==> TotalMonths(from, to) >= 0
  {
    if from <= to {
      MonthIndexMonotone(from / SecondsPerDay, to / SecondsPerDay);
      if NaiveMonths(from, to) == 0 {
        AddNoMonths(from);
        SameStep(from, NaiveMonths(from, to), 0);
      }
    }
  }

  /** The months component of a relativedelta spanning `total` months: Python's
      `divmod` by twelve on the magnitude, the sign put back, whole years split off. */
  function MonthsComponent(total: int): (months: int)
    ensures -11 <= months <= 11
    ensures total >= 0 ==> months == total % 12
    ensures total <= 0 ==> months == -((-total) % 12)
  {
    if total > 11 then total % 12
    else if total < -11 then -((-total) % 12)
    else total
  }

  /** `relativedelta(to, from).months`. */
  function RelativeMonths(from: Timestamp, to: Timestamp): int {
    MonthsComponent(TotalMonths(from, to))
  }
}
