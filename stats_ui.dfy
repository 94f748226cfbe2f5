/** The statistics page script (`013static_js_stats.js`): the period
    selector, the custom date range and the export link, all of which
    rewrite the page's query with `URLSearchParams`. */
module StatsUi {
  import opened Text
  import opened Query
  import opened Wrappers
  import SP = SearchParams

  // ---------------------------------------------------------------------------
  // The queries the page navigates to

  /** The query after choosing a period other than "custom": the period
      set, both dates deleted. */
  function PeriodQuery(q: seq<Param>, period: string): seq<Param>
  {
    SP.Without(SP.Without(SP.SetSpec(q, "period", period), "start_date"), "end_date")
  }

  /** The query after picking a custom range. */
  function DateRangeQuery(q: seq<Param>, start: string, end: string): seq<Param>
  {
    SP.SetSpec(SP.SetSpec(SP.SetSpec(q, "period", "custom"), "start_date", start), "end_date", end)
  }

  /** `set` leaves the pairs of every other name as they were. */
  lemma {:induction false} SetKeepsOthers(ps: seq<Param>, name: string, value: string, other: string)
    requires other != name
    ensures SP.Named(SP.SetSpec(ps, name, value), other) == SP.Named(ps, other)
  {
    SP.SetEffect(ps, name, value);
    SP.DeleteKeepsOthers(SP.SetSpec(ps, name, value), name, other);
    SP.DeleteKeepsOthers(ps, name, other);
  }

  /** After a period change the query names the period once, names no
      date, and keeps every other parameter of the page. */
  lemma {:induction false} PeriodQueryEffect(q: seq<Param>, period: string, other: string)
    requires other !in {"period", "start_date", "end_date"}
    ensures SP.Named(PeriodQuery(q, period), "period") == [Param("period", period)]
    ensures SP.Named(PeriodQuery(q, period), "start_date") == []
    ensures SP.Named(PeriodQuery(q, period), "end_date") == []
    ensures SP.Named(PeriodQuery(q, period), other) == SP.Named(q, other)
  {
    var q1 := SP.SetSpec(q, "period", period);
    var q2 := SP.Without(q1, "start_date");
    SP.SetEffect(q, "period", period);
    SP.DeleteKeepsOthers(q1, "start_date", "period");
    SP.DeleteKeepsOthers(q2, "end_date", "period");
    SP.DeleteRemoves(q1, "start_date");
    SP.DeleteKeepsOthers(q2, "end_date", "start_date");
    SP.DeleteRemoves(q2, "end_date");
    SetKeepsOthers(q, "period", period, other);
    SP.DeleteKeepsOthers(q1, "start_date", other);
    SP.DeleteKeepsOthers(q2, "end_date", other);
  }

  /** After a custom range the query names the custom period and each date
      once, and keeps every other parameter of the page. */
  lemma {:induction false} DateRangeQueryEffect(q: seq<Param>, start: string, end: string, other: string)
    requires other !in {"period", "start_date", "end_date"}
    ensures SP.Named(DateRangeQuery(q, start, end), "period") == [Param("period", "custom")]
    ensures SP.Named(DateRangeQuery(q, start, end), "start_date") == [Param("start_date", start)]
    ensures SP.Named(DateRangeQuery(q, start, end), "end_date") == [Param("end_date", end)]
    ensures SP.Named(DateRangeQuery(q, start, end), other) == SP.Named(q, other)
  {
    var q1 := SP.SetSpec(q, "period", "custom");
    var q2 := SP.SetSpec(q1, "start_date", start);
    SP.SetEffect(q, "period", "custom");
    SP.SetEffect(q1, "start_date", start);
    SP.SetEffect(q2, "end_date", end);
    SetKeepsOthers(q1, "start_date", start, "period");
    SetKeepsOthers(q2, "end_date", end, "period");
    SetKeepsOthers(q2, "end_date", end, "start_date");
    SetKeepsOthers(q, "period", "custom", other);
    SetKeepsOthers(q1, "start_date", start, other);
    SetKeepsOthers(q2, "end_date", end, other);
  }

  // ---------------------------------------------------------------------------
  // The export link

  const ExportStatisticsBase: string := "/statistics/export?"

  /** An input's value as `el?.value || fallback` reads it. */
  function ValueOr(input: Option<string>, fallback: string): (v: string)
    ensures v == fallback <==> input.None? || input.value == "" || input.value == fallback
    ensures v != fallback ==> input == Some(v)
  {
    if input.Some? && input.value != "" then input.value else fallback
  }

  /** The export query: both dates for a custom period that has them,
      otherwise the period alone. */
  function ExportParams(start: string, end: string, period: string): (r: seq<Param>)
    ensures r == [Param("start_date", start), Param("end_date", end)]
            <==> period == "custom" && start != "" && end != ""
    ensures r == [Param("period", period)] <==> !(period == "custom" && start != "" && end != "")
  {
    if period == "custom" && start != "" && end != "" then
      [Param("start_date", start), Param("end_date", end)]
    else
      [Param("period", period)]
  }

  /** The server reads the exported query back into the parameters the
      page chose. */
  lemma {:induction false} ExportReadsBack(start: string, end: string, period: string)
    ensures SP.Decoded(ParseQuery(SP.Serialize(ExportParams(start, end, period))))
            == Some(ExportParams(start, end, period))
  {
    SP.SerializeReadsBack(ExportParams(start, end, period));
  }

  /** The export link for the chosen dates and period, built with
      `URLSearchParams`. */
  method ExportStatisticsUrl(start: string, end: string, period: string) returns (url: string)
    ensures url == ExportStatisticsBase + SP.Serialize(ExportParams(start, end, period))
  {
    var params := new SP.SearchParams([]);
    if period == "custom" && start != "" && end != "" {
      SP.SetTwoOnEmpty("start_date", start, "end_date", end);
      params.Set("start_date", start);
      params.Set("end_date", end);
    } else {
      params.Set("period", period);
    }
    url := ExportStatisticsBase + params.ToString();
  }

  /** The statistics page: its three inputs (`None` when the page has no
      such element), whether the custom range is shown, the page's own
      query, and the queries it has navigated to. */
  class StatsPage {
    var startInput: Option<string>
    var endInput: Option<string>
    var periodSelect: Option<string>
    var customRangeShown: bool
    var query: seq<Param>
    var navigations: seq<seq<Param>>

    constructor (startInput: Option<string>, endInput: Option<string>, periodSelect: Option<string>, query: seq<Param>)
      ensures this.startInput == startInput && this.endInput == endInput && this.periodSelect == periodSelect
      ensures this.query == query && !customRangeShown && navigations == []
    {
      this.startInput := startInput;
      this.endInput := endInput;
      this.periodSelect := periodSelect;
      this.query := query;
      customRangeShown := false;
      navigations := [];
    }

    /** The period selector's change handler. */
    method OnPeriodChange(period: string)
      modifies this
      ensures customRangeShown == (period == "custom")
      ensures navigations == old(navigations) + (if period == "custom" then [] else [PeriodQuery(query, period)])
      ensures startInput == old(startInput) && endInput == old(endInput)
      ensures periodSelect == old(periodSelect) && query == old(query)
    {
      if period == "custom" {
        customRangeShown := true;
        return;
      }
      customRangeShown := false;
      var params := new SP.SearchParams(query);
      params.Set("period", period);
      params.Delete("start_date");
      params.Delete("end_date");
      navigations := navigations + [params.list];
    }

    /** `updateDateRange()`: navigate to the custom range once both dates
        are filled in. */
    method UpdateDateRange()
      modifies this
      ensures var filled := startInput.Some? && startInput.value != "" && endInput.Some? && endInput.value != "";
              navigations == old(navigations)
                + (if filled then [DateRangeQuery(query, startInput.value, endInput.value)] else [])
      ensures startInput == old(startInput) && endInput == old(endInput) && periodSelect == old(periodSelect)
      ensures query == old(query) && customRangeShown == old(customRangeShown)
    {
      if startInput.Some? && startInput.value != "" && endInput.Some? && endInput.value != "" {
        var params := new SP.SearchParams(query);
        params.Set("period", "custom");
        params.Set("start_date", startInput.value);
        params.Set("end_date", endInput.value);
        navigations := navigations + [params.list];
      }
    }

    /** The range picker's change handler: a text that splits on " to "
        into two dates fills both inputs and updates the range. Writing to
        a missing input throws, which ends the handler there. */
    method OnRangePickerChange(dateStr: string)
      modifies this
      ensures var dates := Split(dateStr, " to ");
              if |dates| != 2 || old(startInput).None? then unchanged(this)
              else if old(endInput).None? then
                startInput == Some(dates[0]) && endInput == None && navigations == old(navigations)
              else
                startInput == Some(dates[0]) && endInput == Some(dates[1])
                && navigations == old(navigations)
                  + (if dates[0] != "" && dates[1] != "" then [DateRangeQuery(query, dates[0], dates[1])] else [])
      ensures periodSelect == old(periodSelect) && query == old(query) && customRangeShown == old(customRangeShown)
    {
      var dates := Split(dateStr, " to ");
      if |dates| != 2 || startInput.None? {
        return;
      }
      startInput := Some(dates[0]);
      if endInput.None? {
        return;
      }
      endInput := Some(dates[1]);
      UpdateDateRange();
    }

    /** `exportStatistics()`: the address of the download link. */
    method ExportStatistics() returns (url: string)
      ensures url == ExportStatisticsBase
                     + SP.Serialize(ExportParams(ValueOr(startInput, ""), ValueOr(endInput, ""), ValueOr(periodSelect, "week")))
    {
      url := ExportStatisticsUrl(ValueOr(startInput, ""), ValueOr(endInput, ""), ValueOr(periodSelect, "week"));
    }
  }
}
