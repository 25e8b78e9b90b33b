/**
 * The server side of segments: the relative-period calendar, the period
 * parameters sent with a segment query, the checks made before a segment
 * is created or updated, and the pagination of the lead listing.  The
 * database is reduced to the answers it gives (a duplicate name found, an
 * insert error, the rows returned); "today" is the day number of the
 * current local date.
 */
module SegmentsRemote {

  import opened Wrappers
  import opened Strings
  import opened JsonValues
  import opened Calendar
  import opened SegmentTypes
  import opened UrlQuery

  // ---------------------------------------------------------------------
  // convertRelativePeriodToDates
  // ---------------------------------------------------------------------

  /** A time span in milliseconds, both ends included. */
  datatype Span = Span(start: int, end: int)

  /** The whole of one day. */
  function DaySpan(day: int): Span {
    Span(Midnight(day), Midnight(day) + DayMs - 1)
  }

  /** Seven days from `date - back` of the month of `c`. */
  function WeekSpan(c: Civil, back: int): Span {
    var start := Midnight(MakeDay(c.year, c.month, c.day - back));
    Span(start, start + 7 * DayMs - 1)
  }

  /** From the first of `month` of `year` to the last day of the `months`-th month counted from it. */
  function MonthsSpan(year: int, month: int, months: int): Span {
    Span(Midnight(MakeDay(year, month, 1)), EndOfDay(MakeDay(year, month + months, 0)))
  }

  /** The first month (0-based) of the quarter holding `month`. */
  function QuarterFirst(month: int): (q: int)
    requires 0 <= month < 12
    ensures q == if month < 3 then 0 else if month < 6 then 3 else if month < 9 then 6 else 9
  {
    (month / 3) * 3
  }

  /** The first month of the quarter before the one holding `month`, wrapped into the year before. */
  function LastQuarterStart(year: int, month: int): (int, int)
    requires 0 <= month < 12
  {
    var last := QuarterFirst(month) - 3;
    if last < 0 then (year - 1, 9) else (year, last)
  }

  /**
   * The span a relative period value stands for, on the day numbered
   * `today`.  The value is compared with `===`, so anything that is not one
   * of the known strings takes the default branch.
   */
  function ConvertRelativePeriodToDates(relativeValue: Json, today: int): Span {
    if relativeValue == JStr("yesterday") then DaySpan(today - 1)
    else if relativeValue == JStr("thisWeek") then WeekSpan(CivilOf(today), WeekDay(today))
    else if relativeValue == JStr("lastWeek") then WeekSpan(CivilOf(today), WeekDay(today) + 7)
    else if relativeValue == JStr("thisMonth") then MonthsSpan(CivilOf(today).year, CivilOf(today).month, 1)
    else if relativeValue == JStr("lastMonth") then MonthsSpan(CivilOf(today).year, CivilOf(today).month - 1, 1)
    else if relativeValue == JStr("automatic") || relativeValue == JStr("none") then
      Span(Midnight(MakeDay(CivilOf(today).year, CivilOf(today).month, CivilOf(today).day)), Midnight(today))
    else if relativeValue == JStr("absolute") then Span(Midnight(today), Midnight(today))
    else if relativeValue == JStr("thisQuarter") then
      MonthsSpan(CivilOf(today).year, QuarterFirst(CivilOf(today).month), 3)
    else if relativeValue == JStr("lastQuarter") then
      MonthsSpan(LastQuarterStart(CivilOf(today).year, CivilOf(today).month).0,
                 LastQuarterStart(CivilOf(today).year, CivilOf(today).month).1, 3)
    else DaySpan(today)
  }

  /** The period values the `switch` knows. */
  function RelativeJsonValues(): seq<Json> {
    [JStr("today"), JStr("yesterday"), JStr("thisWeek"), JStr("lastWeek"), JStr("thisMonth"),
     JStr("lastMonth"), JStr("automatic"), JStr("none"), JStr("absolute"), JStr("thisQuarter"),
     JStr("lastQuarter")]
  }

  /**
   * `today` and every unknown value span the whole of today; `yesterday`
   * is the same span one day earlier.
   */
  lemma DaySpans(v: Json, today: int)
    requires v !in RelativeJsonValues()
    ensures ConvertRelativePeriodToDates(v, today) == Span(Midnight(today), Midnight(today + 1) - 1)
    ensures ConvertRelativePeriodToDates(JStr("today"), today) == Span(Midnight(today), Midnight(today + 1) - 1)
    ensures ConvertRelativePeriodToDates(JStr("yesterday"), today) == Span(Midnight(today - 1), Midnight(today) - 1)
  {
    DayTimes(today);
    DayTimes(today - 1);
  }

  lemma WeekSpanStart(c: Civil, back: int)
    requires ValidCivil(c)
    ensures WeekSpan(c, back) == Span(Midnight(DayOf(c) - back), Midnight(DayOf(c) - back + 7) - 1)
  {
    MakeDayInYear(c.year, c.month, c.day - back);
    DayTimes(DayOf(c) - back);
  }

  // One lemma per branch of the `switch`: each names the helper its branch
  // evaluates, so that the span lemmas below need not unfold every branch.

  lemma ThisWeekCase(today: int)
    ensures ConvertRelativePeriodToDates(JStr("thisWeek"), today) == WeekSpan(CivilOf(today), WeekDay(today))
  {
  }

  lemma LastWeekCase(today: int)
    ensures ConvertRelativePeriodToDates(JStr("lastWeek"), today) == WeekSpan(CivilOf(today), WeekDay(today) + 7)
  {
  }

  lemma ThisMonthCase(today: int, c: Civil)
    requires c == CivilOf(today)
    ensures ConvertRelativePeriodToDates(JStr("thisMonth"), today) == MonthsSpan(c.year, c.month, 1)
  {
  }

  lemma LastMonthCase(today: int, c: Civil)
    requires c == CivilOf(today)
    ensures ConvertRelativePeriodToDates(JStr("lastMonth"), today) == MonthsSpan(c.year, c.month - 1, 1)
  {
  }

  lemma ThisQuarterCase(today: int, c: Civil)
    requires c == CivilOf(today)
    ensures ConvertRelativePeriodToDates(JStr("thisQuarter"), today) == MonthsSpan(c.year, QuarterFirst(c.month), 3)
  {
  }

  lemma LastQuarterCase(today: int, c: Civil)
    requires c == CivilOf(today)
    ensures ConvertRelativePeriodToDates(JStr("lastQuarter"), today)
      == MonthsSpan(LastQuarterStart(c.year, c.month).0, LastQuarterStart(c.year, c.month).1, 3)
  {
  }

  lemma AutomaticCase(today: int, c: Civil)
    requires c == CivilOf(today)
    ensures ConvertRelativePeriodToDates(JStr("automatic"), today) == Span(Midnight(MakeDay(c.year, c.month, c.day)), Midnight(today))
    ensures ConvertRelativePeriodToDates(JStr("none"), today) == Span(Midnight(MakeDay(c.year, c.month, c.day)), Midnight(today))
  {
  }

  lemma AbsoluteCase(today: int)
    ensures ConvertRelativePeriodToDates(JStr("absolute"), today) == Span(Midnight(today), Midnight(today))
  {
  }

  /** The Sunday on or before a day is a Sunday, at most six days earlier. */
  lemma SundayBefore(today: int)
    ensures WeekDay(today - WeekDay(today)) == 0
  {
  }

  /** A week span counted back from today's date, in day numbers. */
  lemma WeekSpanOfToday(today: int, back: int)
    ensures WeekSpan(CivilOf(today), back) == Span(Midnight(today - back), Midnight(today - back + 7) - 1)
  {
    WeekSpanStart(CivilOf(today), back);
  }

  /**
   * `thisWeek` starts on the Sunday on or before today and lasts seven
   * days; `lastWeek` is the seven days before it.
   */
  lemma WeekSpans(today: int)
    ensures var sunday := today - WeekDay(today);
      ConvertRelativePeriodToDates(JStr("thisWeek"), today) == Span(Midnight(sunday), Midnight(sunday + 7) - 1)
      && WeekDay(sunday) == 0 && sunday <= today < sunday + 7
    ensures var sunday := today - WeekDay(today);
      ConvertRelativePeriodToDates(JStr("lastWeek"), today) == Span(Midnight(sunday - 7), Midnight(sunday) - 1)
  {
    ThisWeekCase(today);
    LastWeekCase(today);
    SundayBefore(today);
    WeekSpanOfToday(today, WeekDay(today));
    WeekSpanOfToday(today, WeekDay(today) + 7);
  }

  /** The month before month `m` of year `y`, as a first-of-month date. */
  function PreviousMonth(y: int, m: int): Civil
    requires 0 <= m < 12
  {
    if m == 0 then Civil(y - 1, 11, 1) else Civil(y, m - 1, 1)
  }

  lemma MonthSpanBounds(y: int, m: int)
    requires 0 <= m < 12
    ensures MonthsSpan(y, m, 1) == Span(Midnight(MonthStart(y, m)), Midnight(MonthStart(y, m) + DaysInMonth(y, m)) - 1)
  {
    MonthEnd(y, m);
    MakeDayInYear(y, m, 1);
    DayTimes(MonthStart(y, m) + DaysInMonth(y, m) - 1);
  }

  lemma PreviousMonthSpanBounds(y: int, m: int)
    requires 0 <= m < 12
    ensures MonthsSpan(y, m - 1, 1) == Span(Midnight(DayOf(PreviousMonth(y, m))), Midnight(MonthStart(y, m)) - 1)
  {
    var p := PreviousMonth(y, m);
    MakeDayInYear(y, m, 0);
    DayTimes(MonthStart(y, m) - 1);
    if m == 0 {
      MakeDayYearBack(y, 11, 1);
      MakeDayInYear(y - 1, 11, 1);
      assert MakeDay(y, m - 1, 1) == MonthStart(p.year, p.month);
    } else {
      MakeDayInYear(y, m - 1, 1);
      assert MakeDay(y, m - 1, 1) == MonthStart(p.year, p.month);
    }
    assert DayOf(p) == MonthStart(p.year, p.month);
  }

  /** Today lies within its month. */
  lemma TodayInMonth(today: int, c: Civil)
    requires c == CivilOf(today)
    ensures MonthStart(c.year, c.month) <= today < MonthStart(c.year, c.month) + DaysInMonth(c.year, c.month)
  {
  }

  /** `thisMonth` runs from the first to the last day of today's month, which holds today. */
  lemma ThisMonthSpan(today: int, c: Civil)
    requires c == CivilOf(today)
    ensures ConvertRelativePeriodToDates(JStr("thisMonth"), today)
      == Span(Midnight(MonthStart(c.year, c.month)), Midnight(MonthStart(c.year, c.month) + DaysInMonth(c.year, c.month)) - 1)
    ensures MonthStart(c.year, c.month) <= today < MonthStart(c.year, c.month) + DaysInMonth(c.year, c.month)
  {
    assert ConvertRelativePeriodToDates(JStr("thisMonth"), today) == MonthsSpan(c.year, c.month, 1) by {
      ThisMonthCase(today, c);
    }
    TodayInMonth(today, c);
    MonthSpanBounds(c.year, c.month);
  }

  /**
   * `lastMonth` is the month before today's, ending where `thisMonth`
   * begins; in January that is December of the year before.
   */
  lemma LastMonthSpan(today: int, c: Civil)
    requires c == CivilOf(today)
    ensures ConvertRelativePeriodToDates(JStr("lastMonth"), today)
      == Span(Midnight(DayOf(PreviousMonth(c.year, c.month))), Midnight(MonthStart(c.year, c.month)) - 1)
  {
    assert ConvertRelativePeriodToDates(JStr("lastMonth"), today) == MonthsSpan(c.year, c.month - 1, 1) by {
      LastMonthCase(today, c);
    }
    PreviousMonthSpanBounds(c.year, c.month);
  }

  /** The first and last days of a month, read back as dates. */
  lemma MonthEndsReadBack(y: int, m: int)
    requires 0 <= m < 12
    ensures CivilOf(DayOfTime(MonthsSpan(y, m, 1).start)) == Civil(y, m, 1)
    ensures CivilOf(DayOfTime(MonthsSpan(y, m, 1).end)) == Civil(y, m, DaysInMonth(y, m))
  {
    var first := MonthStart(y, m);
    var lastDay := first + DaysInMonth(y, m) - 1;
    assert DayOfTime(MonthsSpan(y, m, 1).start) == first by {
      MonthSpanBounds(y, m);
      DayTimes(first);
    }
    assert DayOfTime(MonthsSpan(y, m, 1).end) == lastDay by {
      MonthSpanBounds(y, m);
      DayTimes(lastDay);
    }
    var s := Civil(y, m, 1);
    assert CivilOf(first) == s by {
      assert ValidCivil(s) && DayOf(s) == first;
      CivilRoundTrip(s);
    }
    var e := Civil(y, m, DaysInMonth(y, m));
    assert CivilOf(lastDay) == e by {
      assert DayOf(e) == lastDay;
      CivilRoundTrip(e);
    }
  }

  /** The dates written for `thisMonth` are the month's first and last days. */
  lemma MonthEndDate(today: int, c: Civil)
    requires c == CivilOf(today)
    ensures CivilOf(DayOfTime(ConvertRelativePeriodToDates(JStr("thisMonth"), today).start)) == Civil(c.year, c.month, 1)
    ensures CivilOf(DayOfTime(ConvertRelativePeriodToDates(JStr("thisMonth"), today).end))
      == Civil(c.year, c.month, DaysInMonth(c.year, c.month))
  {
    ThisMonthCase(today, c);
    MonthEndsReadBack(c.year, c.month);
  }

  lemma QuarterSpanBounds(y: int, m: int)
    requires 0 <= m < 12
    ensures QuarterFirst(m) <= m < QuarterFirst(m) + 3
    ensures MonthsSpan(y, QuarterFirst(m), 3)
      == Span(Midnight(MonthStart(y, QuarterFirst(m))), Midnight(MakeDay(y, QuarterFirst(m) + 3, 1)) - 1)
    ensures MonthStart(y, QuarterFirst(m)) <= MonthStart(y, m)
    ensures MonthStart(y, m) + DaysInMonth(y, m) <= MakeDay(y, QuarterFirst(m) + 3, 1)
  {
    QuarterEnd(y, QuarterFirst(m));
    MonthInQuarter(y, QuarterFirst(m), m);
  }

  /** A month of the quarter starting at month `q` lies within the quarter. */
  lemma MonthInQuarter(y: int, q: int, m: int)
    requires 0 <= q <= m < q + 3 <= 12
    ensures YearStart(y) + DaysBeforeMonth(y, q) <= MonthStart(y, m)
    ensures MonthStart(y, m) + DaysInMonth(y, m) <= YearStart(y) + DaysBeforeMonth(y, q + 3)
  {
    if q < m {
      MonthsIncreasing(y, q, m);
    }
    MonthsIncreasing(y, m, q + 3);
  }

  /** The span of three months from month `q`, ending the day before month `q + 3`. */
  lemma QuarterEnd(y: int, q: int)
    requires 0 <= q <= 9
    ensures MonthsSpan(y, q, 3) == Span(Midnight(MonthStart(y, q)), Midnight(MakeDay(y, q + 3, 1)) - 1)
    ensures MonthStart(y, q) == YearStart(y) + DaysBeforeMonth(y, q)
    ensures MakeDay(y, q + 3, 1) == YearStart(y) + DaysBeforeMonth(y, q + 3)
  {
    MakeDayFirst(y, q);
    MakeDayFirst(y, q + 3);
    assert MakeDay(y, q + 3, 0) == MakeDay(y, q + 3, 1) - 1;
    DayTimes(MakeDay(y, q + 3, 0));
  }

  /** In the first quarter, the last quarter is October to December of the year before. */
  lemma LastQuarterWraps(y: int)
    ensures MonthsSpan(y - 1, 9, 3) == Span(Midnight(MakeDay(y, -3, 1)), Midnight(MonthStart(y, 0)) - 1)
    ensures MakeDay(y, -3, 1) == MonthStart(y - 1, 9)
  {
    MakeDayYearBack(y, 9, 1);
    MakeDayInYear(y - 1, 9, 1);
    QuarterEnd(y - 1, 9);
    YearStartStep(y - 1);
    MonthsFillYear(y - 1);
  }

  /**
   * The explicit wrap of `lastQuarter` to October of the year before agrees
   * with the month normalisation of `MakeDay`: the span runs from month
   * `q - 3` to the day before month `q`.
   */
  lemma LastQuarterSpanBounds(y: int, m: int)
    requires 0 <= m < 12
    ensures MonthsSpan(LastQuarterStart(y, m).0, LastQuarterStart(y, m).1, 3)
      == Span(Midnight(MakeDay(y, QuarterFirst(m) - 3, 1)), Midnight(MonthStart(y, QuarterFirst(m))) - 1)
    ensures MakeDay(y, QuarterFirst(m) - 3, 1)
      == if m < 3 then MonthStart(y - 1, 9) else MonthStart(y, QuarterFirst(m) - 3)
  {
    var q := QuarterFirst(m);
    if m < 3 {
      LastQuarterWraps(y);
    } else {
      QuarterEnd(y, q - 3);
      MakeDayInYear(y, q - 3, 1);
    }
  }

  /** Today lies within its quarter. */
  lemma TodayInQuarter(today: int, c: Civil)
    requires c == CivilOf(today)
    ensures MonthStart(c.year, QuarterFirst(c.month)) <= today < MakeDay(c.year, QuarterFirst(c.month) + 3, 1)
  {
    QuarterSpanBounds(c.year, c.month);
    TodayInMonth(today, c);
  }

  /**
   * `thisQuarter` starts on the first of month ⌊m/3⌋·3 and ends on the
   * last day of the quarter's third month, and holds today.
   */
  lemma ThisQuarterSpan(today: int, c: Civil)
    requires c == CivilOf(today)
    ensures QuarterFirst(c.month) <= c.month < QuarterFirst(c.month) + 3
    ensures ConvertRelativePeriodToDates(JStr("thisQuarter"), today)
      == Span(Midnight(MonthStart(c.year, QuarterFirst(c.month))), Midnight(MakeDay(c.year, QuarterFirst(c.month) + 3, 1)) - 1)
    ensures MonthStart(c.year, QuarterFirst(c.month)) <= today < MakeDay(c.year, QuarterFirst(c.month) + 3, 1)
  {
    ThisQuarterCase(today, c);
    QuarterEnd(c.year, QuarterFirst(c.month));
    TodayInQuarter(today, c);
  }

  /** `lastQuarter` is the three months ending where `thisQuarter` begins. */
  lemma LastQuarterSpan(today: int, c: Civil)
    requires c == CivilOf(today)
    ensures ConvertRelativePeriodToDates(JStr("lastQuarter"), today)
      == Span(Midnight(MakeDay(c.year, QuarterFirst(c.month) - 3, 1)), Midnight(MonthStart(c.year, QuarterFirst(c.month))) - 1)
  {
    var s := MonthsSpan(LastQuarterStart(c.year, c.month).0, LastQuarterStart(c.year, c.month).1, 3);
    assert ConvertRelativePeriodToDates(JStr("lastQuarter"), today) == s by {
      LastQuarterCase(today, c);
    }
    assert s == Span(Midnight(MakeDay(c.year, QuarterFirst(c.month) - 3, 1)), Midnight(MonthStart(c.year, QuarterFirst(c.month))) - 1) by {
      LastQuarterSpanBounds(c.year, c.month);
    }
  }

  /** `automatic`, `none` and `absolute` give today's midnight at both ends. */
  lemma SameDaySpans(today: int)
    ensures ConvertRelativePeriodToDates(JStr("automatic"), today) == Span(Midnight(today), Midnight(today))
    ensures ConvertRelativePeriodToDates(JStr("none"), today) == Span(Midnight(today), Midnight(today))
    ensures ConvertRelativePeriodToDates(JStr("absolute"), today) == Span(Midnight(today), Midnight(today))
  {
    var c := CivilOf(today);
    assert MakeDay(c.year, c.month, c.day) == today by {
      MakeDayInYear(c.year, c.month, c.day);
    }
    AutomaticCase(today, c);
    AbsoluteCase(today);
  }

  // ---------------------------------------------------------------------
  // The period parameters of previewSegmentCount / fetchSegmentLeads
  // ---------------------------------------------------------------------

  /** What the handlers throw: an HTTP error, a redirect, or a `TypeError`. */
  datatype Thrown =
    | HttpError(status: int, message: string)
    | Redirect(status: int, location: string)
    | TypeError

  /**
   * The time filter type (`None` for `undefined`) and the two period dates
   * (`None` for `null`) derived from a rule group.
   */
  datatype PeriodParams = PeriodParams(timeFilterType: Option<Json>, periodStart: Option<string>, periodEnd: Option<string>)

  const DefaultTimeFilter: Json := JStr("lead.createdAt")

  /** `value[key]` where `undefined` and `null` need not be told apart. */
  function Get(value: Json, key: string): Json {
    if Prop(value, key).Some? then Prop(value, key).value else JNull
  }

  /** The `periodValue` of a rule group's truthy `periodFilter`. */
  function PeriodValueOf(ruleJson: Json): Json {
    Get(Get(ruleJson, "periodFilter"), "periodValue")
  }

  /** A truthy `from`/`to` that is not a string has no `toISOString`. */
  predicate BadDateBound(dateRange: Json, key: string) {
    PropTruthy(dateRange, key) && !Get(dateRange, key).JStr?
  }

  /** The property reads of the extraction that throw a `TypeError`. */
  predicate ExtractionThrows(ruleJson: Json) {
    ruleJson.JNull?
    || (HasTemporalFilter(ruleJson)
        && (PeriodValueOf(ruleJson).JNull?
            || (!IsRelativePeriod(PeriodValueOf(ruleJson)) && IsAbsolutePeriod(PeriodValueOf(ruleJson))
                && (BadDateBound(Get(PeriodValueOf(ruleJson), "dateRange"), "from")
                    || BadDateBound(Get(PeriodValueOf(ruleJson), "dateRange"), "to")))))
  }

  /** `bound.split('T')[0]` of a truthy string bound, else `null`. */
  function DateBound(dateRange: Json, key: string): Option<string> {
    if PropTruthy(dateRange, key) && Get(dateRange, key).JStr? then Some(BeforeFirst(Get(dateRange, key).s, 'T'))
    else None
  }

  /**
   * The period extraction of the two query handlers: the time filter type
   * defaults to `lead.createdAt` and is replaced by the filter's own when
   * a filter is present; a relative period becomes the dates of its span,
   * an absolute one its bounds cut at `T`.
   */
  method ExtractPeriodParams(ruleJson: Json, today: int) returns (r: Result<PeriodParams, Thrown>)
    ensures r.Err? <==> ExtractionThrows(ruleJson)
    ensures r.Err? ==> r.error == TypeError
    ensures r.Ok? && !HasTemporalFilter(ruleJson) ==> r.value == PeriodParams(Some(DefaultTimeFilter), None, None)
    ensures r.Ok? && HasTemporalFilter(ruleJson) ==>
      r.value.timeFilterType == Prop(Get(ruleJson, "periodFilter"), "timeFilterType")
    ensures r.Ok? && HasTemporalFilter(ruleJson) && IsRelativePeriod(PeriodValueOf(ruleJson)) ==>
      var span := ConvertRelativePeriodToDates(Get(PeriodValueOf(ruleJson), "relativeValue"), today);
      r.value.periodStart == Some(IsoDate(DayOfTime(span.start)))
      && r.value.periodEnd == Some(IsoDate(DayOfTime(span.end)))
    ensures (r.Ok? && HasTemporalFilter(ruleJson) && !IsRelativePeriod(PeriodValueOf(ruleJson))
      && IsAbsolutePeriod(PeriodValueOf(ruleJson))) ==>
      r.value.periodStart == DateBound(Get(PeriodValueOf(ruleJson), "dateRange"), "from")
      && r.value.periodEnd == DateBound(Get(PeriodValueOf(ruleJson), "dateRange"), "to")
    ensures (r.Ok? && HasTemporalFilter(ruleJson) && !IsRelativePeriod(PeriodValueOf(ruleJson))
      && !IsAbsolutePeriod(PeriodValueOf(ruleJson))) ==>
      r.value.periodStart.None? && r.value.periodEnd.None?
  {
    if ruleJson.JNull? {
      return Err(TypeError);
    }
    var periodFilter := Prop(ruleJson, "periodFilter");
    var timeFilterType := Some(DefaultTimeFilter);
    var periodStart: Option<string> := None;
    var periodEnd: Option<string> := None;
    if periodFilter.Some? && Truthy(periodFilter.value) {
      timeFilterType := Prop(periodFilter.value, "timeFilterType");
      var periodValue := Get(periodFilter.value, "periodValue");
      if periodValue.JNull? {
        return Err(TypeError);
      }
      if IsRelativePeriod(periodValue) {
        var dateRange := ConvertRelativePeriodToDates(Get(periodValue, "relativeValue"), today);
        periodStart := Some(IsoDate(DayOfTime(dateRange.start)));
        periodEnd := Some(IsoDate(DayOfTime(dateRange.end)));
      } else if IsAbsolutePeriod(periodValue) {
        var dateRange := Get(periodValue, "dateRange");
        var from := Get(dateRange, "from");
        var to := Get(dateRange, "to");
        if Truthy(from) {
          if !from.JStr? {
            return Err(TypeError);
          }
          periodStart := Some(BeforeFirst(from.s, 'T'));
        }
        if Truthy(to) {
          if !to.JStr? {
            return Err(TypeError);
          }
          periodEnd := Some(BeforeFirst(to.s, 'T'));
        }
      }
    }
    r := Ok(PeriodParams(timeFilterType, periodStart, periodEnd));
  }

  /** A value of the `dbParams` dictionary handed to the stored procedure. */
  datatype DbParam =
    | Text(text: string)
    | Value(json: Json)
    | Number(number: Option<int>)  // None is NaN
    | Undefined

  /** The pagination and ordering parameters of `fetchSegmentLeads`. */
  datatype Paging = Paging(limit: Option<int>, offset: Option<int>, orderBy: string)

  /** A truthy period bound: present and non-empty. */
  predicate Filled(v: Option<string>) {
    v.Some? && v.value != ""
  }

  /**
   * `dbParams`: the object literal with the organisation, the rule JSON, the
   * time filter type and, for a lead listing, the paging values; then the
   * two period bounds, set only when both are non-empty. The stored
   * procedures take named arguments, so the dictionary is a map.
   */
  method BuildDbParams(organizationId: string, ruleJson: Json, p: PeriodParams, paging: Option<Paging>)
    returns (dbParams: map<string, DbParam>)
    ensures dbParams.Keys == {"p_organization_id", "p_rule_json", "p_time_filter_type"}
      + (if paging.Some? then {"p_limit", "p_offset", "p_order_by"} else {})
      + (if Filled(p.periodStart) && Filled(p.periodEnd) then {"p_period_start", "p_period_end"} else {})
    ensures "p_organization_id" in dbParams && dbParams["p_organization_id"] == Text(organizationId)
    ensures "p_rule_json" in dbParams && dbParams["p_rule_json"] == Value(ruleJson)
    ensures "p_time_filter_type" in dbParams
      && dbParams["p_time_filter_type"] == if p.timeFilterType.Some? then Value(p.timeFilterType.value) else Undefined
    ensures paging.Some? ==> "p_limit" in dbParams && dbParams["p_limit"] == Number(paging.value.limit)
    ensures paging.Some? ==> "p_offset" in dbParams && dbParams["p_offset"] == Number(paging.value.offset)
    ensures paging.Some? ==> "p_order_by" in dbParams && dbParams["p_order_by"] == Text(paging.value.orderBy)
    ensures Filled(p.periodStart) && Filled(p.periodEnd) ==>
      "p_period_start" in dbParams && dbParams["p_period_start"] == Text(p.periodStart.value)
      && "p_period_end" in dbParams && dbParams["p_period_end"] == Text(p.periodEnd.value)
  {
    var timeFilterType := if p.timeFilterType.Some? then Value(p.timeFilterType.value) else Undefined;
    dbParams := map["p_organization_id" := Text(organizationId), "p_rule_json" := Value(ruleJson),
                    "p_time_filter_type" := timeFilterType];
    if paging.Some? {
      dbParams := dbParams["p_limit" := Number(paging.value.limit)]["p_offset" := Number(paging.value.offset)]
        ["p_order_by" := Text(paging.value.orderBy)];
    }
    if Filled(p.periodStart) && Filled(p.periodEnd) {
      dbParams := dbParams["p_period_start" := Text(p.periodStart.value)];
      dbParams := dbParams["p_period_end" := Text(p.periodEnd.value)];
    }
  }

  // ---------------------------------------------------------------------
  // Pagination of fetchSegmentLeads
  // ---------------------------------------------------------------------

  /** `value || fallback` for a string that may be `null`. */
  function OrDefault(v: Option<string>, fallback: string): string {
    if v.Some? && v.value != "" then v.value else fallback
  }

  function PagingOf(query: seq<(string, string)>): Paging {
    Paging(
      ParseInt(OrDefault(SearchParam(query, "limit"), "100")),
      ParseInt(OrDefault(SearchParam(query, "offset"), "0")),
      OrDefault(SearchParam(query, "orderBy"), "created_at DESC"))
  }

  datatype Pagination = Pagination(limit: Option<int>, offset: Option<int>, total: nat, hasMore: bool)

  /** The `pagination` answer for the rows the procedure returned (`[]` for `null`). */
  function PaginationOf(paging: Paging, rows: nat): Pagination {
    Pagination(paging.limit, paging.offset, rows, Some(rows as int) == paging.limit)
  }

  /** The default `limit` and `offset` strings parse to 100 and 0. */
  lemma ParseDefaults()
    ensures ParseInt("100") == Some(100) && ParseInt("0") == Some(0)
  {
    assert IntToString(0) == "0" by {
      assert NatToString(0) == [DigitChar(0)];
    }
    assert IntToString(100) == "100" by {
      assert NatToString(1) == "1";
      assert NatToString(10) == NatToString(1) + [DigitChar(0)];
      assert NatToString(100) == NatToString(10) + [DigitChar(0)];
    }
    ParseIntRoundTrip(100);
    ParseIntRoundTrip(0);
  }

  /**
   * Without (or with empty) `limit`, `offset` and `orderBy` the listing
   * asks for 100 rows from offset 0 by `created_at DESC`.
   */
  lemma PagingDefaults(query: seq<(string, string)>)
    ensures Missing(SearchParam(query, "limit")) ==> PagingOf(query).limit == Some(100)
    ensures Missing(SearchParam(query, "offset")) ==> PagingOf(query).offset == Some(0)
    ensures Missing(SearchParam(query, "orderBy")) ==> PagingOf(query).orderBy == "created_at DESC"
  {
    ParseDefaults();
  }

  /** A `limit` written as a decimal integer is read back as that integer. */
  lemma PagingLimitReadBack(query: seq<(string, string)>, n: int)
    requires SearchParam(query, "limit") == Some(IntToString(n))
    ensures PagingOf(query).limit == Some(n)
  {
    ParseIntRoundTrip(n);
    assert OrDefault(SearchParam(query, "limit"), "100") == IntToString(n) by {
      assert |NatToString(if n < 0 then -n else n)| > 0;
    }
  }

  /** `hasMore` holds exactly when as many rows came back as were asked for. */
  lemma HasMoreIff(query: seq<(string, string)>, rows: nat)
    ensures var p := PaginationOf(PagingOf(query), rows);
      p.total == rows && (p.hasMore <==> PagingOf(query).limit == Some(rows as int))
  {
  }

  // ---------------------------------------------------------------------
  // createSegment / updateSegment
  // ---------------------------------------------------------------------

  /** `FormData.get`: the first value of a field, `None` for `null`. */
  function FormGet(form: seq<(string, string)>, key: string): Option<string> {
    SearchParam(form, key)
  }

  /** `!value` for a form value that may be `null`. */
  predicate Missing(v: Option<string>) {
    v.None? || v.value == ""
  }

  /** `!value?.trim()`. */
  predicate Blank(v: Option<string>) {
    v.None? || Trim(v.value) == ""
  }

  /** `description ? description.trim() || null : null`. */
  function StoredDescription(d: Option<string>): (r: Option<string>)
    ensures r.None? <==> Blank(d)
    ensures r.Some? ==> r.value == Trim(d.value)
  {
    if d.Some? && d.value != "" && Trim(d.value) != "" then Some(Trim(d.value)) else None
  }

  /** The row written to `segments`. */
  datatype SegmentRow = SegmentRow(organizationId: string, name: string, description: Option<string>, ruleJson: Json)

  /** What a handler throws, with the row it wrote (if any). */
  datatype Outcome = Outcome(thrown: Thrown, written: Option<SegmentRow>)

  /**
   * The rule-JSON checks of `createSegment`: a non-null object whose
   * `combinator` is truthy and whose `rules` is a non-empty array.
   */
  function CreateRulesCheck(ruleJson: Json): (r: Option<string>)
    ensures r.None? <==> (ruleJson.JObj? && PropTruthy(ruleJson, "combinator")
      && Get(ruleJson, "rules").JArr? && |Get(ruleJson, "rules").items| > 0)
  {
    var rules := Get(ruleJson, "rules");
    if !Truthy(ruleJson) || !(ruleJson.JObj? || ruleJson.JArr?) then Some("Regras do segmento inválidas")
    else if !PropTruthy(ruleJson, "combinator") || !rules.JArr? then
      Some("Estrutura das regras do segmento inválida")
    else if |rules.items| == 0 then
      Some("Adicione pelo menos uma regra de segmentação antes de salvar. Use o botão \"Adicionar Regra\" para criar critérios de filtragem.")
    else None
  }

  /** The `try` block of `createSegment`: it always ends by throwing. */
  function CreateSegmentBody(form: seq<(string, string)>, parse: string -> Option<Json>, duplicate: bool, insertError: Option<string>): Outcome {
    var organizationId := FormGet(form, "organizationId");
    var name := FormGet(form, "name");
    var rules := FormGet(form, "rules");
    if Missing(organizationId) then Outcome(HttpError(400, "Organization ID is required"), None)
    else if Blank(name) then Outcome(HttpError(400, "Nome do segmento é obrigatório"), None)
    else if Missing(rules) then Outcome(HttpError(400, "Rules are required"), None)
    else if parse(rules.value).None? then Outcome(HttpError(400, "Regras do segmento inválidas"), None)
    else if CreateRulesCheck(parse(rules.value).value).Some? then
      Outcome(HttpError(400, CreateRulesCheck(parse(rules.value).value).value), None)
    else if duplicate then Outcome(HttpError(400, "Já existe um segmento com este nome"), None)
    else
      var row := SegmentRow(organizationId.value, Trim(name.value), StoredDescription(FormGet(form, "description")), parse(rules.value).value);
      if insertError.Some? then
        Outcome(HttpError(500, "Erro ao criar segmento: " + OrDefault(insertError, "Erro desconhecido")), None)
      else Outcome(Redirect(303, "/orgs/" + organizationId.value + "/segments"), Some(row))
  }

  /**
   * The `catch` block as written: only an object with both `status` and
   * `location` (a redirect) is thrown again; everything else, the 400s
   * raised inside the `try` included, becomes a 500.
   */
  function CatchAsWritten(t: Thrown): Thrown {
    if t.Redirect? then t else HttpError(500, "Erro interno do servidor")
  }

  /** The `catch` block as evidently intended: HTTP errors pass through too. */
  function CatchCorrected(t: Thrown): (r: Thrown)
    ensures t.Redirect? || t.HttpError? ==> r == t
    ensures t.TypeError? ==> r == HttpError(500, "Erro interno do servidor")
  {
    if t.Redirect? || t.HttpError? then t else HttpError(500, "Erro interno do servidor")
  }

  function CreateSegmentAsWritten(form: seq<(string, string)>, parse: string -> Option<Json>, duplicate: bool, insertError: Option<string>): Outcome {
    var o := CreateSegmentBody(form, parse, duplicate, insertError);
    Outcome(CatchAsWritten(o.thrown), o.written)
  }

  function CreateSegment(form: seq<(string, string)>, parse: string -> Option<Json>, duplicate: bool, insertError: Option<string>): Outcome {
    var o := CreateSegmentBody(form, parse, duplicate, insertError);
    Outcome(CatchCorrected(o.thrown), o.written)
  }

  /** The form and rules `createSegment` accepts before touching the database. */
  predicate CreateInputValid(form: seq<(string, string)>, parse: string -> Option<Json>) {
    !Missing(FormGet(form, "organizationId")) && !Blank(FormGet(form, "name"))
    && !Missing(FormGet(form, "rules")) && parse(FormGet(form, "rules").value).Some?
    && CreateRulesCheck(parse(FormGet(form, "rules").value).value).None?
  }

  /**
   * As written, no call of `createSegment` ends in a 400: every validation
   * failure reaches the client as a 500.
   */
  lemma CreateSegmentAsWrittenHidesClientErrors(form: seq<(string, string)>, parse: string -> Option<Json>, duplicate: bool, insertError: Option<string>)
    ensures var o := CreateSegmentAsWritten(form, parse, duplicate, insertError);
      o.thrown.HttpError? ==> o.thrown == HttpError(500, "Erro interno do servidor")
    ensures !CreateInputValid(form, parse) ==>
      CreateSegmentAsWritten(form, parse, duplicate, insertError).thrown == HttpError(500, "Erro interno do servidor")
  {
  }

  /** A form with a blank name: the `try` block answers 400, the handler 500. */
  lemma BlankNameAsWritten(parse: string -> Option<Json>)
    ensures CreateSegmentBody([("organizationId", "o1"), ("name", " ")], parse, false, None).thrown
      == HttpError(400, "Nome do segmento é obrigatório")
    ensures CreateSegmentAsWritten([("organizationId", "o1"), ("name", " ")], parse, false, None).thrown
      == HttpError(500, "Erro interno do servidor")
  {
    assert Trim(" ") == "" by {
      TrimEmptyIffBlank(" ");
    }
  }

  /**
   * With the corrected `catch`, `createSegment` rejects with 400 exactly a
   * missing organisation, a blank name, missing or unparseable rules, rules
   * that are not an object with a combinator and a non-empty rules array,
   * and a duplicate name; it writes the row and redirects to the segment
   * list exactly when none of these holds and the insert succeeds.
   */
  lemma CreateSegmentOutcomes(form: seq<(string, string)>, parse: string -> Option<Json>, duplicate: bool, insertError: Option<string>)
    ensures var o := CreateSegment(form, parse, duplicate, insertError);
      (o.thrown.HttpError? && o.thrown.status == 400) <==> !CreateInputValid(form, parse) || duplicate
    ensures var o := CreateSegment(form, parse, duplicate, insertError);
      o.thrown.Redirect? <==> CreateInputValid(form, parse) && !duplicate && insertError.None?
    ensures var o := CreateSegment(form, parse, duplicate, insertError);
      o.thrown.Redirect? ==>
        o.thrown == Redirect(303, "/orgs/" + FormGet(form, "organizationId").value + "/segments")
        && o.written == Some(SegmentRow(FormGet(form, "organizationId").value, Trim(FormGet(form, "name").value),
             StoredDescription(FormGet(form, "description")), parse(FormGet(form, "rules").value).value))
    ensures CreateSegment(form, parse, duplicate, insertError).written.Some?
      <==> CreateSegment(form, parse, duplicate, insertError).thrown.Redirect?
  {
    var o := CreateSegmentBody(form, parse, duplicate, insertError);
    if !CreateInputValid(form, parse) || duplicate {
      assert o.thrown.HttpError? && o.thrown.status == 400 && o.written.None?;
    } else if insertError.Some? {
      assert o.thrown.HttpError? && o.thrown.status == 500 && o.written.None?;
    } else {
      assert o.thrown.Redirect? && o.written.Some?;
    }
  }

  /** A rule group with at least one rule passes the checks of `createSegment`. */
  lemma EncodedGroupPassesCreateChecks(id: Option<string>, c: Combinator, rules: seq<RuleOrGroup>, not: Option<bool>, f: Option<PeriodFilter>)
    requires |rules| > 0
    ensures CreateRulesCheck(Encode(Group(id, c, rules, not, f))).None?
  {
    GroupMembers(id, c, rules, not, f);
  }

  /**
   * The rule-JSON check of `updateSegment`: a `null` document throws when
   * its properties are read; otherwise it is refused only when both
   * `combinator` and `rules` are falsy.
   */
  function UpdateRulesCheck(ruleJson: Json): (r: Option<Thrown>)
    ensures r.Some? <==> ruleJson.JNull? || (!PropTruthy(ruleJson, "combinator") && !PropTruthy(ruleJson, "rules"))
  {
    if ruleJson.JNull? then Some(TypeError)
    else if !PropTruthy(ruleJson, "combinator") && !PropTruthy(ruleJson, "rules") then
      Some(HttpError(400, "Pelo menos uma regra deve ser definida"))
    else None
  }

  /** The `try` block of `updateSegment`. */
  function UpdateSegmentBody(form: seq<(string, string)>, parse: string -> Option<Json>, duplicate: bool, updateError: bool): Outcome {
    var organizationId := FormGet(form, "organizationId");
    var segmentId := FormGet(form, "segmentId");
    var name := FormGet(form, "name");
    var rules := FormGet(form, "rules");
    if Missing(organizationId) then Outcome(HttpError(400, "Organization ID is required"), None)
    else if Missing(segmentId) then Outcome(HttpError(400, "Segment ID is required"), None)
    else if Blank(name) then Outcome(HttpError(400, "Nome do segmento é obrigatório"), None)
    else if Missing(rules) then Outcome(HttpError(400, "Rules are required"), None)
    else if parse(rules.value).None? then Outcome(HttpError(400, "Regras do segmento inválidas"), None)
    else if UpdateRulesCheck(parse(rules.value).value).Some? then
      Outcome(UpdateRulesCheck(parse(rules.value).value).value, None)
    else if duplicate then Outcome(HttpError(400, "Já existe um segmento com este nome"), None)
    else if updateError then Outcome(HttpError(500, "Erro ao atualizar segmento. Tente novamente."), None)
    else
      var row := SegmentRow(organizationId.value, Trim(name.value), StoredDescription(FormGet(form, "description")), parse(rules.value).value);
      Outcome(Redirect(303, "/orgs/" + organizationId.value + "/segments"), Some(row))
  }

  function UpdateSegmentAsWritten(form: seq<(string, string)>, parse: string -> Option<Json>, duplicate: bool, updateError: bool): Outcome {
    var o := UpdateSegmentBody(form, parse, duplicate, updateError);
    Outcome(CatchAsWritten(o.thrown), o.written)
  }

  function UpdateSegment(form: seq<(string, string)>, parse: string -> Option<Json>, duplicate: bool, updateError: bool): Outcome {
    var o := UpdateSegmentBody(form, parse, duplicate, updateError);
    Outcome(CatchCorrected(o.thrown), o.written)
  }

  /**
   * `updateSegment` is laxer than `createSegment` about the rules: a
   * document with a truthy `combinator` or a truthy `rules` is accepted,
   * so every document `createSegment` accepts is accepted, while a
   * `rules` array that is empty is not refused.
   */
  lemma UpdateAcceptsWhatCreateAccepts(ruleJson: Json)
    ensures CreateRulesCheck(ruleJson).None? ==> UpdateRulesCheck(ruleJson).None?
    ensures UpdateRulesCheck(JObj([("combinator", JStr("and")), ("rules", JArr([]))])).None?
    ensures CreateRulesCheck(JObj([("combinator", JStr("and")), ("rules", JArr([]))])).Some?
  {
    var empty := JObj([("combinator", JStr("and")), ("rules", JArr([]))]);
    assert empty.members[0].0 == "combinator";
    assert Lookup(empty.members, "rules") == Some(JArr([]));
  }

  /** As written, `updateSegment` never answers 400 either. */
  lemma UpdateSegmentAsWrittenHidesClientErrors(form: seq<(string, string)>, parse: string -> Option<Json>, duplicate: bool, updateError: bool)
    ensures var o := UpdateSegmentAsWritten(form, parse, duplicate, updateError);
      o.thrown.HttpError? ==> o.thrown == HttpError(500, "Erro interno do servidor")
  {
  }

  /**
   * With the corrected `catch`, an update with a non-null rule document
   * that has neither `combinator` nor `rules` is refused with 400 and
   * writes nothing.
   */
  lemma UpdateSegmentRejectsEmptyRules(form: seq<(string, string)>, parse: string -> Option<Json>, duplicate: bool, updateError: bool)
    requires !Missing(FormGet(form, "organizationId")) && !Missing(FormGet(form, "segmentId"))
    requires !Blank(FormGet(form, "name")) && !Missing(FormGet(form, "rules"))
    requires parse(FormGet(form, "rules").value).Some?
    requires var j := parse(FormGet(form, "rules").value).value;
      !j.JNull? && !PropTruthy(j, "combinator") && !PropTruthy(j, "rules")
    ensures UpdateSegment(form, parse, duplicate, updateError)
      == Outcome(HttpError(400, "Pelo menos uma regra deve ser definida"), None)
  {
  }
}
