/** The administration panel's helpers: the password policy, the choice of
    chart granularity for a time range, the calendar axis of a usage chart,
    the dense series filled from the grouped usage sums, and the conversion of
    a permission checklist into a permission map. */
module AdminPanel {
  import opened Wrappers
  import opened Calendar
  import opened Schema
  import opened Database

  // ---------------------------------------------------------------------
  // Password policy

  predicate IsLower(c: char) { 'a' <= c <= 'z' }
  predicate IsUpper(c: char) { 'A' <= c <= 'Z' }
  predicate IsDigit(c: char) { '0' <= c <= '9' }

  /** The characters a regular-expression `\s` matches in a Python string:
      those for which `str.isspace` holds. */
  predicate IsWhitespace(c: char) {
    var n := c as int;
    || (9 <= n <= 13) || (28 <= n <= 32) || n == 0x85 || n == 0xA0 || n == 0x1680
    || (0x2000 <= n <= 0x200A) || n == 0x2028 || n == 0x2029 || n == 0x202F
    || n == 0x205F || n == 0x3000
  }

  /** `validate_password`: at least eight characters, a lower-case letter, an
      upper-case letter and a digit somewhere, and no white space anywhere. */
  function ValidatePassword(password: string): (ok: bool)
    ensures ok <==>
      && |password| >= 8
      && (exists i :: 0 <= i < |password| && IsLower(password[i]))
      && (exists i :: 0 <= i < |password| && IsUpper(password[i]))
      && (exists i :: 0 <= i < |password| && IsDigit(password[i]))
      && (forall i :: 0 <= i < |password| ==> !IsWhitespace(password[i]))
  {
    if |password| < 8 then false
    else if FirstMatch(password, IsLower).None? then false
    else if FirstMatch(password, IsUpper).None? then false
    else if FirstMatch(password, IsDigit).None? then false
    else if FirstMatch(password, IsWhitespace).Some? then false
    else true
  }

  /** Appending a character that is not white space keeps a password acceptable. */
  lemma ValidatePasswordExtends(password: string, c: char)
    requires ValidatePassword(password) && !IsWhitespace(c)
    ensures ValidatePassword(password + [c])
  {
    var q := password + [c];
    forall i | 0 <= i < |q|
      ensures !IsWhitespace(q[i])
    {
      if i < |password| {
        assert q[i] == password[i];
      }
    }
    var a :| 0 <= a < |password| && IsLower(password[a]);
    var b :| 0 <= b < |password| && IsUpper(password[b]);
    var d :| 0 <= d < |password| && IsDigit(password[d]);
    assert IsLower(q[a]) && IsUpper(q[b]) && IsDigit(q[d]);
  }

  // ---------------------------------------------------------------------
  // Time ranges and chart granularity

  /** The slices a chart can be drawn at. */
  predicate Charted(slice: Option<Slice>) {
    slice.Some? && (slice.value == Minute || slice.value == Hour || slice.value == Day || slice.value == Month)
  }

  /** `get_slice`: the finest granularity whose axis stays readable for a
      window of `dayFrom - dayTo` days; none beyond a year. */
  function GetSlice(dayFrom: real, dayTo: real): (slice: Option<Slice>)
    ensures slice.None? <==> dayFrom - dayTo > 365.0
    ensures slice.Some? ==> Charted(slice)
    ensures slice == Some(Minute) <==> dayFrom - dayTo <= 2.0 / 24.0
    ensures slice == Some(Hour) <==> 2.0 / 24.0 < dayFrom - dayTo <= 1.0
    ensures slice == Some(Day) <==> 1.0 < dayFrom - dayTo <= 30.0
    ensures slice == Some(Month) <==> 30.0 < dayFrom - dayTo <= 365.0
  {
    var diff := dayFrom - dayTo;
    if diff <= 2.0 / 24.0 then Some(Minute)
    else if diff <= 1.0 then Some(Hour)
    else if diff <= 30.0 then Some(Day)
    else if diff <= 365.0 then Some(Month)
    else None
  }

  /** A wider window never gets a finer slice. */
  lemma GetSliceMonotone(from1: real, to1: real, from2: real, to2: real)
    requires from1 - to1 <= from2 - to2
    requires GetSlice(from2, to2).Some?
    ensures GetSlice(from1, to1).Some?
    ensures Depth(GetSlice(from1, to1).value) >= Depth(GetSlice(from2, to2).value)
  {
  }

  /** The time ranges the panel offers, by label. */
  const RangeLabels: seq<string> :=
    ["1 hour", "24 hours", "3 days", "1 week", "1 month", "3 months", "6 months", "1 year"]

  /** A window reaching back `dayFrom` days and ending `dayTo` days ago. */
  datatype Window = Window(dayFrom: real, dayTo: real)

  /** `generate_day_from_to`: a known label gives the window reaching back
      that many days and ending now; an unknown label gives nothing. */
  function GenerateDayFromTo(rangeLabel: string): (r: Option<Window>)
    ensures r.Some? <==> rangeLabel in RangeLabels
    ensures r.Some? ==> r.value.dayTo == 0.0 && 0.0 < r.value.dayFrom <= 365.0
  {
    if rangeLabel == "1 hour" then Some(Window(1.0 / 24.0, 0.0))
    else if rangeLabel == "24 hours" then Some(Window(1.0, 0.0))
    else if rangeLabel == "3 days" then Some(Window(3.0, 0.0))
    else if rangeLabel == "1 week" then Some(Window(7.0, 0.0))
    else if rangeLabel == "1 month" then Some(Window(30.0, 0.0))
    else if rangeLabel == "3 months" then Some(Window(90.0, 0.0))
    else if rangeLabel == "6 months" then Some(Window(180.0, 0.0))
    else if rangeLabel == "1 year" then Some(Window(365.0, 0.0))
    else None
  }

  /** Every offered range can be charted, at this slice. */
  lemma RangeLabelSlices(rangeLabel: string)
    requires rangeLabel in RangeLabels
    ensures var w := GenerateDayFromTo(rangeLabel).value;
      var f, t := w.dayFrom, w.dayTo;
      && GetSlice(f, t).Some?
      && (rangeLabel == "1 hour" ==> GetSlice(f, t) == Some(Minute))
      && (rangeLabel == "24 hours" ==> GetSlice(f, t) == Some(Hour))
      && (rangeLabel in ["3 days", "1 week", "1 month"] ==> GetSlice(f, t) == Some(Day))
      && (rangeLabel in ["3 months", "6 months", "1 year"] ==> GetSlice(f, t) == Some(Month))
  {
  }

  // ---------------------------------------------------------------------
  // The chart's time axis

  /** The step of a fixed-length slice, in seconds. */
  function UnitSeconds(slice: Slice): (unit: int)
    requires slice == Minute || slice == Hour || slice == Day
    ensures unit > 0
  {
    match slice
    case Minute => SecondsPerMinute
    case Hour => SecondsPerHour
    case Day => SecondsPerDay
  }

  /** `range(int(span // unit) + 1)`'s length: the grid points `k * unit`
      that lie in `[0, span]`. */
  function StepCount(span: int, unit: int): (n: nat)
    requires unit > 0
    ensures n == 0 <==> span < 0
    ensures n > 0 ==> (n - 1) * unit <= span < n * unit
  {
    var q := span / unit;
    if q + 1 > 0 then q + 1 else 0
  }

  /** The number of points of a month axis: `range(months + 2)`'s length. */
  function MonthCount(months: int): (n: nat)
    ensures months >= -2 ==> n == months + 2
    ensures months < -2 ==> n == 0
  {
    if months + 2 > 0 then months + 2 else 0
  }

  /** A chart axis: the instants and their calendar labels. */
  datatype Axis = Axis(points: seq<Timestamp>, labels: seq<Bucket>)

  function LabelsOf(points: seq<Timestamp>, slice: Slice): (labels: seq<Bucket>)
    ensures |labels| == |points|
    ensures forall k :: 0 <= k < |points| ==> labels[k] == Truncate(points[k], slice)
  {
    seq(|points|, k requires 0 <= k < |points| => Truncate(points[k], slice))
  }

  /** `generate_x_data`: for a fixed-length slice, the instants `dateFrom`,
      one unit later, ... as long as they do not pass `dateTo`; for the month
      slice, `dateFrom` stepped by calendar months, as many as the months
      component of the difference plus two. Other slices leave the axis
      unbound (an error). */
  function GenerateXData(dateFrom: Timestamp, dateTo: Timestamp, slice: Option<Slice>): (x: Option<Axis>)
    ensures x.Some? <==> Charted(slice)
    ensures x.Some? ==> x.value.labels == LabelsOf(x.value.points, slice.value)
    ensures x.Some? && slice.value != Month ==>
      var unit := UnitSeconds(slice.value);
      var pts := x.value.points;
      && |pts| == StepCount(dateTo - dateFrom, unit)
      && (forall k :: 0 <= k < |pts| ==> pts[k] == dateFrom + k * unit && dateFrom <= pts[k] <= dateTo)
      && (|pts| > 0 ==> dateTo < pts[|pts| - 1] + unit)
    ensures x.Some? && slice.value == Month ==>
      var pts := x.value.points;
      && |pts| == MonthCount(RelativeMonths(dateFrom, dateTo)) <= 13
      && forall k :: 0 <= k < |pts| ==> pts[k] == AddMonths(dateFrom, k)
  {
    if !Charted(slice) then None
    else if slice.value == Month then
      var pts := MonthSteps(dateFrom, MonthCount(RelativeMonths(dateFrom, dateTo)));
      Some(Axis(pts, LabelsOf(pts, Month)))
    else
      var unit := UnitSeconds(slice.value);
      var n := StepCount(dateTo - dateFrom, unit);
      GridWithin(dateFrom, dateTo, unit, n);
      var pts := GridSteps(dateFrom, unit, n);
      Some(Axis(pts, LabelsOf(pts, slice.value)))
  }

  /** `n` instants `unit` seconds apart from `dateFrom` on. */
  function GridSteps(dateFrom: Timestamp, unit: int, n: nat): (pts: seq<Timestamp>)
    ensures |pts| == n && forall k :: 0 <= k < n ==> pts[k] == dateFrom + k * unit
  {
    seq(n, k requires 0 <= k < n => dateFrom + k * unit)
  }

  /** `n` instants a calendar month apart from `dateFrom` on. */
  function MonthSteps(dateFrom: Timestamp, n: nat): (pts: seq<Timestamp>)
    ensures |pts| == n && forall k :: 0 <= k < n ==> pts[k] == AddMonths(dateFrom, k)
  {
    seq(n, k requires 0 <= k < n => AddMonths(dateFrom, k))
  }

  /** The grid points counted by `StepCount` stay inside the window. */
  lemma GridWithin(dateFrom: Timestamp, dateTo: Timestamp, unit: int, n: nat)
    requires unit > 0 && n == StepCount(dateTo - dateFrom, unit)
    ensures forall k :: 0 <= k < n ==> dateFrom <= dateFrom + k * unit <= dateTo
    ensures n > 0 ==> dateTo < dateFrom + (n - 1) * unit + unit
  {
    forall k | 0 <= k < n
      ensures dateFrom <= dateFrom + k * unit <= dateTo
    {
      MulMonotone(k, n - 1, unit);
    }
  }

  lemma MulMonotone(a: int, b: int, c: int)
    requires 0 <= a <= b && c > 0
    ensures 0 <= a * c <= b * c
  {
    assert b * c == a * c + (b - a) * c;
  }

  // ---------------------------------------------------------------------
  // The chart's series

  function Zeros(n: nat): (z: seq<int>)
    ensures |z| == n && forall k :: 0 <= k < n ==> z[k] == 0
  {
    seq(n, _ => 0)
  }

  /** The first position of bucket `b` among the axis keys (`list.index`). */
  function IndexOf(keys: seq<Bucket>, b: Bucket): (r: Option<nat>)
    ensures r.Some? ==> r.value < |keys| && keys[r.value] == b
    ensures r.Some? ==> forall j :: 0 <= j < r.value ==> keys[j] != b
    ensures r.None? <==> b !in keys
  {
    FirstMatch(keys, (k: Bucket) => k == b)
  }

  /** The series the grouped rows produce, row after row: each row whose
      bucket is on the axis overwrites the value at its first position. */
  function Fill(records: seq<Group>, keys: seq<Bucket>): (y: seq<int>)
    ensures |y| == |keys|
    ensures forall k :: 0 <= k < |y| && y[k] != 0 ==>
      exists n :: 0 <= n < |records| && IndexOf(keys, records[n].date) == Some(k) && records[n].sumRequest == y[k]
    decreases |records|
  {
    if |records| == 0 then Zeros(|keys|)
    else
      var last := records[|records| - 1];
      var init := records[..|records| - 1];
      assert forall n :: 0 <= n < |init| ==> init[n] == records[n];
      var y := Fill(init, keys);
      match IndexOf(keys, last.date)
      case None => y
      case Some(k) => y[k := last.sumRequest]
  }

  /** The value at position `k`: zero when no row lands there, otherwise the
      sum of the last row that lands there (rows overwrite, they do not add). */
  lemma FillAt(records: seq<Group>, keys: seq<Bucket>, k: nat)
    requires k < |keys|
    ensures (forall n :: 0 <= n < |records| ==> IndexOf(keys, records[n].date) != Some(k)) ==>
      Fill(records, keys)[k] == 0
    ensures forall n ::
      (&& 0 <= n < |records| && IndexOf(keys, records[n].date) == Some(k)
       && (forall m :: n < m < |records| ==> IndexOf(keys, records[m].date) != Some(k)))
      ==> Fill(records, keys)[k] == records[n].sumRequest
  {
    forall n | && 0 <= n < |records| && IndexOf(keys, records[n].date) == Some(k)
               && (forall m :: n < m < |records| ==> IndexOf(keys, records[m].date) != Some(k))
      ensures Fill(records, keys)[k] == records[n].sumRequest
    {
      FillLastWins(records, keys, k, n);
    }
  }

  /** The row `n` is the last to land at `k`, so its sum is what stays there. */
  lemma {:induction false} FillLastWins(records: seq<Group>, keys: seq<Bucket>, k: nat, n: nat)
    requires k < |keys| && n < |records| && IndexOf(keys, records[n].date) == Some(k)
    requires forall m :: n < m < |records| ==> IndexOf(keys, records[m].date) != Some(k)
    ensures Fill(records, keys)[k] == records[n].sumRequest
    decreases |records|
  {
    if n < |records| - 1 {
      var init := records[..|records| - 1];
      assert init[n] == records[n];
      assert forall m :: n < m < |init| ==> init[m] == records[m];
      FillLastWins(init, keys, k, n);
    }
  }

  /** `generate_y_data`: a zero per axis point, then each row written at the
      first point whose bucket equals the row's; all zeros without rows or for
      a slice the chart does not draw. */
  method GenerateYData(records: seq<Group>, xData: seq<Timestamp>, slice: Option<Slice>) returns (y: seq<int>)
    ensures |y| == |xData|
    ensures |records| == 0 || !Charted(slice) ==> y == Zeros(|xData|)
    ensures Charted(slice) ==> y == Fill(records, LabelsOf(xData, slice.value))
  {
    y := Zeros(|xData|);
    if |records| == 0 || !Charted(slice) {
      return;
    }
    var keys := LabelsOf(xData, slice.value);
    for n := 0 to |records|
      invariant y == Fill(records[..n], keys)
    {
      assert records[..n + 1][..n] == records[..n];
      var index := IndexOf(keys, records[n].date);
      if index.Some? {
        y := y[index.value := records[n].sumRequest];
      }
    }
    assert records[..|records|] == records;
  }

  /** Feeding the grouped usage into the series: at every axis point whose
      bucket appears there first, the series holds that bucket's summed cost. */
  lemma ChartShowsBucketSums(events: seq<UsageEvent>, slice: Slice, keys: seq<Bucket>, k: nat)
    requires k < |keys| && IndexOf(keys, keys[k]) == Some(k)
    ensures Fill(GroupsOf(events, slice), keys)[k] == SumIn(events, slice, keys[k])
  {
    var groups := GroupsOf(events, slice);
    if HasEventIn(events, slice, keys[k]) {
      assert keys[k] in Dates(groups);
      var n :| 0 <= n < |groups| && Dates(groups)[n] == keys[k];
      assert groups[n].date == keys[k];
      forall m | n < m < |groups|
        ensures IndexOf(keys, groups[m].date) != Some(k)
      {
        assert groups[m].date != groups[n].date;
      }
      FillLastWins(groups, keys, k, n);
    } else {
      forall n | 0 <= n < |groups|
        ensures IndexOf(keys, groups[n].date) != Some(k)
      {
        assert Dates(groups)[n] == groups[n].date;
      }
    }
  }

  // ---------------------------------------------------------------------
  // The month axis of a window of a year or more

  /** 2022-01-01 00:00:00 and 2023-01-01 00:00:00: 365 days apart, so the
      "1 year" range ending at the second instant starts at the first. */
  const NewYear2022: Timestamp := 18993 * SecondsPerDay
  const NewYear2023: Timestamp := 19358 * SecondsPerDay

  lemma NewYear2022Civil()
    ensures DaysFromCivil(2022, 1, 1) == 18993
    ensures CivilFromDays(18993) == (2022, 1, 1)
  {
    assert MarchDay(1, 1) == 306;
    assert SplitEra(7976) == (21, 306);
    assert MonthDay(306) == (1, 1);
    CivilFromDaysInEra(18993, 5, 7976);
    CivilOfEraParts(5, 7976, 21, 306, 2022, 1, 1);
  }

  lemma NewYear2023Civil()
    ensures DaysFromCivil(2023, 1, 1) == 19358
    ensures CivilFromDays(19358) == (2023, 1, 1)
  {
    assert MarchDay(1, 1) == 306;
    assert SplitEra(8341) == (22, 306);
    assert MonthDay(306) == (1, 1);
    CivilFromDaysInEra(19358, 5, 8341);
    CivilOfEraParts(5, 8341, 22, 306, 2023, 1, 1);
  }

  lemma February2022Civil()
    ensures DaysFromCivil(2022, 2, 1) == 19024
    ensures CivilFromDays(19024) == (2022, 2, 1)
  {
    assert MarchDay(2, 1) == 337;
    assert SplitEra(8007) == (21, 337);
    assert MonthDay(337) == (2, 1);
    CivilFromDaysInEra(19024, 5, 8007);
    CivilOfEraParts(5, 8007, 21, 337, 2022, 2, 1);
  }

  lemma NewYear2022Days()
    ensures NewYear2022 / SecondsPerDay == 18993 && NewYear2022 % SecondsPerDay == 0
  {
  }

  /** Stepping twelve months from 2022-01-01 lands on 2023-01-01. */
  lemma TwelveMonthsAfterNewYear2022()
    ensures AddMonths(NewYear2022, 12) == NewYear2023
  {
    NewYear2022Days();
    NewYear2022Civil();
    NewYear2023Civil();
    assert 24276 / 12 == 2023 && 24276 % 12 == 0;
  }

  /** Stepping one month from 2022-01-01 lands on 2022-02-01. */
  lemma OneMonthAfterNewYear2022()
    ensures AddMonths(NewYear2022, 1) == 19024 * SecondsPerDay
  {
    NewYear2022Days();
    NewYear2022Civil();
    February2022Civil();
    assert 24265 / 12 == 2022 && 24265 % 12 == 1;
  }

  lemma ZeroMonthsAfterNewYear2022()
    ensures AddMonths(NewYear2022, 0) == NewYear2022
  {
    NewYear2022Days();
    NewYear2022Civil();
    assert 24264 / 12 == 2022 && 24264 % 12 == 0;
  }

  /** The month labels of the three new-year and February instants. */
  lemma MonthLabels()
    ensures Truncate(NewYear2022, Month) == [2022, 1]
    ensures Truncate(19024 * SecondsPerDay, Month) == [2022, 2]
    ensures Truncate(NewYear2023, Month) == [2023, 1]
  {
    NewYear2022Label();
    February2022Label();
    NewYear2023Label();
  }

  lemma NewYear2022Label()
    ensures Truncate(NewYear2022, Month) == [2022, 1]
  {
    NewYear2022Days();
    NewYear2022Civil();
  }

  lemma February2022Label()
    ensures Truncate(19024 * SecondsPerDay, Month) == [2022, 2]
  {
    February2022Civil();
    assert (19024 * SecondsPerDay) / SecondsPerDay == 19024;
  }

  lemma NewYear2023Label()
    ensures Truncate(NewYear2023, Month) == [2023, 1]
  {
    NewYear2023Civil();
    assert NewYear2023 / SecondsPerDay == 19358;
  }

  /** `relativedelta` finds twelve whole months in the year 2022. */
  lemma TotalMonthsOf2022()
    ensures TotalMonths(NewYear2022, NewYear2023) == 12
  {
    NewYear2022Days();
    NewYear2022Civil();
    NewYear2023Civil();
    TwelveMonthsAfterNewYear2022();
    assert NewYear2023 / SecondsPerDay == 19358;
  }

  /** The two instants of the month axis of the year 2022, as written. */
  lemma MonthAxisOfAFullYearPoints()
    ensures RelativeMonths(NewYear2022, NewYear2023) == 0
    ensures GenerateXData(NewYear2022, NewYear2023, Some(Month)).value.points
      == [NewYear2022, 19024 * SecondsPerDay]
  {
    RelativeMonthsOf2022();
    FirstTwoMonthsOf2022();
  }

  lemma RelativeMonthsOf2022()
    ensures RelativeMonths(NewYear2022, NewYear2023) == 0
  {
    TotalMonthsOf2022();
  }

  lemma FirstTwoMonthsOf2022()
    ensures MonthSteps(NewYear2022, 2) == [NewYear2022, 19024 * SecondsPerDay]
  {
    ZeroMonthsAfterNewYear2022();
    OneMonthAfterNewYear2022();
  }

  /** As written, the month axis of the year 2022 has two points, January and
      February 2022: the months component of a difference of exactly one year
      is zero, and the month of `dateTo` is missing from the axis. */
  lemma MonthAxisOfAFullYear()
    ensures var x := GenerateXData(NewYear2022, NewYear2023, Some(Month)).value;
      && RelativeMonths(NewYear2022, NewYear2023) == 0
      && x.labels == [[2022, 1], [2022, 2]]
      && Truncate(NewYear2023, Month) == [2023, 1]
      && Truncate(NewYear2023, Month) !in x.labels
  {
    MonthAxisOfAFullYearPoints();
    var x := GenerateXData(NewYear2022, NewYear2023, Some(Month)).value;
    MonthLabels();
    assert x.labels == [[2022, 1], [2022, 2]];
    assert [2023, 1][0] != [2022, 1][0] && [2023, 1][0] != [2022, 2][0];
  }

  /** The month axis counting every month of the difference, years included. */
  function MonthAxis(dateFrom: Timestamp, dateTo: Timestamp): (x: Axis)
    ensures |x.points| == MonthCount(TotalMonths(dateFrom, dateTo))
    ensures forall k :: 0 <= k < |x.points| ==> x.points[k] == AddMonths(dateFrom, k)
    ensures x.labels == LabelsOf(x.points, Month)
  {
    var pts := MonthSteps(dateFrom, MonthCount(TotalMonths(dateFrom, dateTo)));
    Axis(pts, LabelsOf(pts, Month))
  }

  /** The corrected axis agrees with the written one for windows under a year
      and, from a year on, has a point for each whole month spanned, where the
      written one never has more than thirteen. */
  lemma MonthAxisCountsEveryMonth(dateFrom: Timestamp, dateTo: Timestamp)
    ensures 0 <= TotalMonths(dateFrom, dateTo) <= 11 ==>
      MonthAxis(dateFrom, dateTo) == GenerateXData(dateFrom, dateTo, Some(Month)).value
    ensures TotalMonths(dateFrom, dateTo) >= 12 ==>
      && |MonthAxis(dateFrom, dateTo).points| == TotalMonths(dateFrom, dateTo) + 2
      && |GenerateXData(dateFrom, dateTo, Some(Month)).value.points| < |MonthAxis(dateFrom, dateTo).points|
  {
  }

  /** Over a forward window the corrected axis ends with the last month step
      that does not pass `dateTo`, followed by the first one that does. */
  lemma MonthAxisBracketsDateTo(dateFrom: Timestamp, dateTo: Timestamp)
    ensures dateFrom <= dateTo ==>
      var pts := MonthAxis(dateFrom, dateTo).points;
      |pts| >= 2 && pts[|pts| - 2] <= dateTo < pts[|pts| - 1]
  {
    if dateFrom <= dateTo {
      var pts := MonthAxis(dateFrom, dateTo).points;
      assert TotalMonths(dateFrom, dateTo) >= 0 by {
        TotalMonthsNonNegative(dateFrom, dateTo);
      }
      assert pts[|pts| - 2] == AddMonths(dateFrom, TotalMonths(dateFrom, dateTo));
      assert pts[|pts| - 1] == AddMonths(dateFrom, TotalMonths(dateFrom, dateTo) + 1);
      TotalMonthsBracket(dateFrom, dateTo);
    }
  }

  /** For the year 2022 the corrected axis reaches January 2023. */
  lemma MonthAxisOfAFullYearReachesDateTo()
    ensures |MonthAxis(NewYear2022, NewYear2023).points| == 14
    ensures MonthAxis(NewYear2022, NewYear2023).labels[12] == Truncate(NewYear2023, Month)
  {
    TotalMonthsOf2022();
    TwelveMonthsAfterNewYear2022();
  }

  // ---------------------------------------------------------------------
  // The user forms

  /** The permission map before any box is ticked. */
  const NoPermissions: Permissions :=
    map[TextCompletionModels := false, ChatCompletionModels := false,
        EmbeddingsPermission := false, FineTunePermission := false]

  /** The map a checklist yields: each ticked name set to true on top of the
      all-false map. */
  function ChecklistToMap(selected: seq<string>): (perms: Permissions)
    ensures forall k :: k in perms <==> k in PermissionKeysList || k in selected
    ensures forall k :: k in perms ==> (perms[k] <==> k in selected)
    decreases |selected|
  {
    if |selected| == 0 then NoPermissions
    else
      var init := selected[..|selected| - 1];
      assert forall k :: k in selected <==> k in init || k == selected[|selected| - 1];
      ChecklistToMap(init)[selected[|selected| - 1] := true]
  }

  /** A checklist drawn from the four permission names passes the permission
      validator, and the order or repetition of ticks does not matter. */
  lemma ChecklistPassesValidator(selected: seq<string>, other: seq<string>)
    requires forall k :: k in selected ==> k in PermissionKeysList
    requires forall k :: k in selected <==> k in other
    ensures PermissionsCheck(ChecklistToMap(selected)).Ok?
    ensures ChecklistToMap(selected) == ChecklistToMap(other)
  {
    var p := ChecklistToMap(selected);
    assert p.Keys == set k | k in PermissionKeysList;
  }

  /** `convert_data`'s loop: the all-false map with each ticked name set. */
  method ConvertPermissions(selected: seq<string>) returns (perms: Permissions)
    ensures perms == ChecklistToMap(selected)
  {
    perms := NoPermissions;
    for n := 0 to |selected|
      invariant perms == ChecklistToMap(selected[..n])
    {
      assert selected[..n + 1][..n] == selected[..n];
      perms := perms[selected[n] := true];
    }
    assert selected[..|selected|] == selected;
  }

  /** The add-user and first-owner forms as submitted. */
  datatype UserForm = UserForm(
    userId: string, name: string, password: string, repeatPassword: string,
    requestLimit: int, fineTuneLimit: int, privilege: string, permissions: seq<string>)

  /** The update form as submitted. */
  datatype UpdateForm = UpdateForm(
    userId: string, name: string, requestLimit: int, fineTuneLimit: int, permissions: seq<string>)

  /** The request body the add-user and first-owner forms send. */
  datatype UserBody = UserBody(
    userId: string, name: string, password: string,
    requestLimit: int, fineTuneLimit: int, privilege: string, permissions: Permissions)

  /** The request body the update form sends. */
  datatype UpdateBody = UpdateBody(
    userId: string, name: string, requestLimit: int, fineTuneLimit: int, permissions: Permissions)

  /** `convert_data` of the add-user and first-owner forms: the checklist
      becomes a map and the repeated password is dropped. */
  method ConvertUserForm(form: UserForm) returns (body: UserBody)
    ensures body.permissions == ChecklistToMap(form.permissions)
    ensures body == UserBody(form.userId, form.name, form.password, form.requestLimit,
                             form.fineTuneLimit, form.privilege, ChecklistToMap(form.permissions))
  {
    var perms := ConvertPermissions(form.permissions);
    body := UserBody(form.userId, form.name, form.password, form.requestLimit,
                     form.fineTuneLimit, form.privilege, perms);
  }

  /** `convert_data` of the update form: only the checklist is converted. */
  method ConvertUpdateForm(form: UpdateForm) returns (body: UpdateBody)
    ensures body == UpdateBody(form.userId, form.name, form.requestLimit, form.fineTuneLimit,
                               ChecklistToMap(form.permissions))
  {
    var perms := ConvertPermissions(form.permissions);
    body := UpdateBody(form.userId, form.name, form.requestLimit, form.fineTuneLimit, perms);
  }

  /** A body converted from a form whose ticks are permission names and whose
      privilege is a known level is accepted as a `User`, with exactly the
      ticked permissions granted. */
  lemma ConvertedFormValidates(form: UserForm)
    requires forall k :: k in form.permissions ==> k in PermissionKeysList
    requires form.privilege in PrivilegeList
    ensures var body := UserBody(form.userId, form.name, form.password, form.requestLimit,
                                 form.fineTuneLimit, form.privilege, ChecklistToMap(form.permissions));
      var r := ValidateUser(body.userId, body.password, body.name, Some(body.requestLimit),
                            Some(body.fineTuneLimit), Some(body.permissions), Some(body.privilege));
      && r.Ok?
      && (forall k :: k in PermissionKeysList ==> (r.value.profile.permissions[k] <==> k in form.permissions))
  {
    ChecklistPassesValidator(form.permissions, form.permissions);
  }
}
