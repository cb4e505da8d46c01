/** The `gsc.search_analytics` tool of src/tools/search-analytics.ts: the query
    request built from a validated input, and the report text built from the
    rows. The averages of the summary are computed in exact arithmetic and
    rendered by the abstract `Renderers`. */
module SearchAnalytics {
  import opened Wrappers
  import opened Strings
  import opened Errors
  import opened Inputs
  import opened GoogleApi
  import Dates
  import opened Format

  // ---------------------------------------------------------------- request

  /** The API's name of a dimension, `d.toUpperCase()`. */
  function ApiDimension(d: Dimension): string {
    ToUpper(d.Name())
  }

  /** One filter in the API's form: only the dimension is upper-cased. */
  function ConvertFilter(f: DimensionFilter): (r: ApiFilter)
    ensures r.operator == f.operator.Name() && r.expression == f.expression
    ensures r.dimension == ToUpper(f.dimension.Name())
  {
    ApiFilter(ApiDimension(f.dimension), f.operator.Name(), f.expression)
  }

  /** `convertFilters`: absent or empty filters give no group; otherwise one 'and'
      group holding every filter, in order. */
  function ConvertFilters(filters: Option<seq<DimensionFilter>>): (r: Option<seq<FilterGroup>>)
    ensures r.None? <==> filters.None? || filters.value == []
    ensures r.Some? ==> (|r.value| == 1 && r.value[0].groupType == "and"
      && |r.value[0].filters| == |filters.value|
      && forall i :: 0 <= i < |filters.value| ==> r.value[0].filters[i] == ConvertFilter(filters.value[i]))
  {
    if filters.None? || |filters.value| == 0 then None
    else
      var fs := filters.value;
      Some([FilterGroup("and", seq(|fs|, i requires 0 <= i < |fs| => ConvertFilter(fs[i])))])
  }

  /** Reading a converted filter back: the API dimension name lower-cased is the
      dimension's own name. */
  function UnconvertFilter(f: ApiFilter): Option<DimensionFilter> {
    match (DimensionFromName(ToLower(f.dimension)), OperatorFromName(f.operator))
    case (Some(d), Some(o)) => Some(DimensionFilter(d, o, f.expression))
    case _ => None
  }

  /** Every dimension's name is lower case, its API name is its upper-casing, and
      the API name lower-cases back to the name. */
  lemma DimensionCaseRoundTrip(d: Dimension)
    ensures ToLower(d.Name()) == d.Name()
    ensures ToLower(ApiDimension(d)) == d.Name()
  {
    var n := d.Name();
    assert forall i :: 0 <= i < |n| ==> 'a' <= n[i] <= 'z';
    assert ToLower(n) == n;
    assert ToLower(ApiDimension(d)) == n;
  }

  /** The conversion loses nothing: each API filter reads back as the input filter. */
  lemma ConvertFiltersRoundTrip(filters: seq<DimensionFilter>, i: nat)
    requires i < |filters|
    ensures UnconvertFilter(ConvertFilters(Some(filters)).value[0].filters[i]) == Some(filters[i])
  {
    var f := filters[i];
    DimensionCaseRoundTrip(f.dimension);
    EnumNamesRoundTrip(f.dimension, f.operator, Web);
  }

  /** `dimensions.some((d) => d.toLowerCase() === 'page')`. */
  function HasPageDimension(dimensions: seq<Dimension>): (r: bool)
    ensures r <==> Page in dimensions
  {
    if dimensions == [] then false
    else
      var d := dimensions[|dimensions| - 1];
      DimensionCaseRoundTrip(d);
      EnumNamesRoundTrip(d, Equals, Web);
      assert ToLower(d.Name()) == "page" <==> d == Page;
      assert forall e :: e in dimensions <==> e in dimensions[..|dimensions| - 1] || e == d;
      ToLower(d.Name()) == "page" || HasPageDimension(dimensions[..|dimensions| - 1])
  }

  /** The query request: dates from the date-range rule, upper-cased dimensions and
      type, all data, and per-property aggregation unless grouping by page. */
  function BuildRequest(input: SearchAnalyticsInput, range: Dates.DateRange): (r: SearchRequest)
    ensures r.startDate == range.startDate && r.endDate == range.endDate
    ensures |r.dimensions| == |input.dimensions|
    ensures forall i :: 0 <= i < |input.dimensions| ==> r.dimensions[i] == ToUpper(input.dimensions[i].Name())
    ensures r.rowLimit == input.rowLimit && r.startRow == input.startRow
    ensures r.searchType == ToUpper(input.searchType.Name())
    ensures r.dimensionFilterGroups == ConvertFilters(input.filters)
    ensures r.dataState == "all"
    ensures r.aggregationType.Some? <==> Page !in input.dimensions
    ensures r.aggregationType.Some? ==> r.aggregationType.value == "byProperty"
  {
    var dims := input.dimensions;
    SearchRequest(
      range.startDate,
      range.endDate,
      seq(|dims|, i requires 0 <= i < |dims| => ApiDimension(dims[i])),
      input.rowLimit,
      input.startRow,
      ToUpper(input.searchType.Name()),
      ConvertFilters(input.filters),
      "all",
      if HasPageDimension(dims) then None else Some("byProperty"))
  }

  /** The request of an input whose optional keys were all omitted. */
  lemma DefaultRequest(site: string, range: Dates.DateRange)
    ensures var r := BuildRequest(SearchAnalyticsInput(site, None, None, None, [Query], 100, 0, Web, None), range);
      r.dimensions == ["QUERY"] && r.searchType == "WEB" && r.rowLimit == 100 && r.startRow == 0
      && r.aggregationType == Some("byProperty") && r.dimensionFilterGroups.None?
  {
    var r := BuildRequest(SearchAnalyticsInput(site, None, None, None, [Query], 100, 0, Web, None), range);
    assert r.dimensions[0] == ToUpper("query");
    assert ToUpper("query") == "QUERY";
    assert ToUpper("web") == "WEB";
  }

  // ---------------------------------------------------------------- report

  /** `input.filters?.length`: filters that are present and non-empty. */
  predicate FiltersGiven(filters: Option<seq<DimensionFilter>>) {
    filters.Some? && filters.value != []
  }

  function FilterText(f: DimensionFilter): string {
    f.dimension.Name() + " " + f.operator.Name() + " \"" + f.expression + "\""
  }

  function DimensionNamesOf(dimensions: seq<Dimension>): (r: seq<string>)
    ensures |r| == |dimensions|
    ensures forall i :: 0 <= i < |dimensions| ==> r[i] == dimensions[i].Name()
  {
    seq(|dimensions|, i requires 0 <= i < |dimensions| => dimensions[i].Name())
  }

  function FiltersLine(filters: seq<DimensionFilter>): string {
    "Filters: " + Join(seq(|filters|, i requires 0 <= i < |filters| => FilterText(filters[i])), ", ")
  }

  /** The lines before the table: site, period, dimensions, the filters when there
      are any, and a blank line. */
  function HeaderLines(input: SearchAnalyticsInput, range: Dates.DateRange): seq<string> {
    ["Search Analytics for " + input.siteUrl,
     "Period: " + range.startDate + " to " + range.endDate,
     "Dimensions: " + Join(DimensionNamesOf(input.dimensions), ", ")]
    + (if FiltersGiven(input.filters) then [FiltersLine(input.filters.value)] else [])
    + [""]
  }

  /** The Filters line appears, as the fourth line, exactly when filters were given. */
  lemma FiltersLineIff(input: SearchAnalyticsInput, range: Dates.DateRange)
    ensures var lines := HeaderLines(input, range);
      (exists i :: 0 <= i < |lines| && StartsWith(lines[i], "Filters: ")) <==> FiltersGiven(input.filters)
    ensures FiltersGiven(input.filters) ==> HeaderLines(input, range)[3] == FiltersLine(input.filters.value)
    ensures |HeaderLines(input, range)| == if FiltersGiven(input.filters) then 5 else 4
  {
    var lines := HeaderLines(input, range);
    if FiltersGiven(input.filters) {
      assert StartsWith(lines[3], "Filters: ");
    } else {
      forall i | 0 <= i < |lines|
        ensures !StartsWith(lines[i], "Filters: ")
      {
        assert lines[i] == "" || lines[i][0] in {'S', 'P', 'D'};
      }
    }
  }

  /** The API row as the table formatter takes it. */
  function TableRowOf(row: ApiDataRow): AnalyticsRow {
    AnalyticsRow(row.keys, row.clicks, row.impressions, row.ctr, row.position)
  }

  function TableRowsOf(rows: seq<ApiDataRow>): (r: seq<AnalyticsRow>)
    ensures |r| == |rows|
    ensures forall i :: 0 <= i < |rows| ==> r[i] == TableRowOf(rows[i])
  {
    seq(|rows|, i requires 0 <= i < |rows| => TableRowOf(rows[i]))
  }

  /** The sum of one metric over the rows, a missing value counting 0. */
  function Total(values: seq<real>): real {
    if values == [] then 0.0 else Total(values[..|values| - 1]) + values[|values| - 1]
  }

  function Clicks(rows: seq<ApiDataRow>): seq<real> {
    seq(|rows|, i requires 0 <= i < |rows| => rows[i].clicks.GetOr(0.0))
  }

  function Impressions(rows: seq<ApiDataRow>): seq<real> {
    seq(|rows|, i requires 0 <= i < |rows| => rows[i].impressions.GetOr(0.0))
  }

  function Positions(rows: seq<ApiDataRow>): seq<real> {
    seq(|rows|, i requires 0 <= i < |rows| => rows[i].position.GetOr(0.0))
  }

  /** Total clicks over total impressions, 0 without impressions. */
  function AverageCtr(rows: seq<ApiDataRow>): real {
    var impressions := Total(Impressions(rows));
    if impressions > 0.0 then Total(Clicks(rows)) / impressions else 0.0
  }

  /** The mean of the positions, a missing one counting 0. */
  function AveragePosition(rows: seq<ApiDataRow>): real
    requires rows != []
  {
    Total(Positions(rows)) / (|rows| as real)
  }

  /** The count line of the summary, flagged when the row limit was reached. */
  function RowsReturnedLine(count: nat, rowLimit: int): string {
    "Rows Returned: " + NatToString(count) + (if count == rowLimit then " (limit reached)" else "")
  }

  /** "(limit reached)" is shown exactly when as many rows came back as were asked for. */
  lemma LimitReachedIff(count: nat, rowLimit: int)
    ensures EndsWith(RowsReturnedLine(count, rowLimit), " (limit reached)") <==> count == rowLimit
  {
    var line := RowsReturnedLine(count, rowLimit);
    var digits := "Rows Returned: " + NatToString(count);
    if count != rowLimit {
      assert line == digits;
      assert IsDigit(line[|line| - 1]);
      assert !IsDigit(" (limit reached)"[15]);
    }
  }

  /** The summary lines after the table: present only when rows came back. */
  function SummaryLines(fmt: Renderers, rows: seq<ApiDataRow>, rowLimit: int): (r: seq<string>)
    ensures rows == [] <==> r == []
    ensures rows != [] ==> (|r| == 7 && r[0] == "" && r[1] == "--- Summary ---"
      && r[6] == RowsReturnedLine(|rows|, rowLimit))
  {
    if rows == [] then []
    else
      ["",
       "--- Summary ---",
       "Total Clicks: " + fmt.local(Total(Clicks(rows))),
       "Total Impressions: " + fmt.local(Total(Impressions(rows))),
       "Average CTR: " + fmt.fixed(AverageCtr(rows) * 100.0, 2) + "%",
       "Average Position: " + fmt.fixed(AveragePosition(rows), 1),
       RowsReturnedLine(|rows|, rowLimit)]
  }

  /** The report for the rows the query returned. */
  function ReportText(fmt: Renderers, input: SearchAnalyticsInput, range: Dates.DateRange, rows: seq<ApiDataRow>): string {
    Unlines(HeaderLines(input, range))
    + AnalyticsTableText(fmt, TableRowsOf(rows), DimensionNamesOf(input.dimensions))
    + Unlines(SummaryLines(fmt, rows, input.rowLimit))
  }

  /** What the tool returns: the report, or the formatted error when the query throws. */
  function SearchAnalyticsText(fmt: Renderers, cal: Dates.Calendar, api: SearchConsole, input: SearchAnalyticsInput)
    : (r: string)
    ensures var q := api.query(input.siteUrl, BuildRequest(input, Dates.ParseDateRange(input.startDate, input.endDate, input.days, cal)));
      q.Failure? ==> StartsWith(r, "Error: ")
    ensures var q := api.query(input.siteUrl, BuildRequest(input, Dates.ParseDateRange(input.startDate, input.endDate, input.days, cal)));
      q.Success? ==> StartsWith(r, "Search Analytics for " + input.siteUrl + "\n")
  {
    var range := Dates.ParseDateRange(input.startDate, input.endDate, input.days, cal);
    match api.query(input.siteUrl, BuildRequest(input, range))
    case Failure(e) =>
      StartsWithShorter(FormatToolError(e), "Error: ", FormatGoogleApiError(e).message);
      FormatToolError(e)
    case Success(rows) =>
      ReportStartsWithSite(fmt, input, range, rows.GetOr([]));
      ReportText(fmt, input, range, rows.GetOr([]))
  }

  /** The report opens with the line naming the site. */
  lemma ReportStartsWithSite(fmt: Renderers, input: SearchAnalyticsInput, range: Dates.DateRange, rows: seq<ApiDataRow>)
    ensures StartsWith(ReportText(fmt, input, range, rows), "Search Analytics for " + input.siteUrl + "\n")
  {
    var head := HeaderLines(input, range);
    var rest := AnalyticsTableText(fmt, TableRowsOf(rows), DimensionNamesOf(input.dimensions))
      + Unlines(SummaryLines(fmt, rows, input.rowLimit));
    UnlinesStartsWith(head);
    StartsWithConcat(Unlines(head), rest, head[0] + "\n");
    assert Unlines(head) + rest == ReportText(fmt, input, range, rows);
  }

  /** A failed query is reported as text, never thrown. */
  lemma QueryFailureIsText(fmt: Renderers, cal: Dates.Calendar, api: SearchConsole, input: SearchAnalyticsInput)
    requires api.query(input.siteUrl, BuildRequest(input, Dates.ParseDateRange(input.startDate, input.endDate, input.days, cal))).Failure?
    ensures var e := api.query(input.siteUrl, BuildRequest(input, Dates.ParseDateRange(input.startDate, input.endDate, input.days, cal))).error;
      SearchAnalyticsText(fmt, cal, api, input) == FormatToolError(e)
      && StartsWith(SearchAnalyticsText(fmt, cal, api, input), "Error: ")
  {
    var range := Dates.ParseDateRange(input.startDate, input.endDate, input.days, cal);
    var e := api.query(input.siteUrl, BuildRequest(input, range)).error;
    assert SearchAnalyticsText(fmt, cal, api, input) == FormatToolError(e);
    StartsWithShorter(FormatToolError(e), "Error: ", FormatGoogleApiError(e).message);
  }

  /** The summary is present exactly when rows came back, and the table then has
      one line per row. */
  lemma SummaryIffRows(fmt: Renderers, input: SearchAnalyticsInput, range: Dates.DateRange, rows: seq<ApiDataRow>)
    ensures rows == [] ==> ReportText(fmt, input, range, rows) == Unlines(HeaderLines(input, range)) + NoDataMessage
    ensures rows != [] ==> (ReportText(fmt, input, range, rows)
      == Unlines(HeaderLines(input, range) + AnalyticsTableLines(fmt, TableRowsOf(rows), DimensionNamesOf(input.dimensions))
                 + SummaryLines(fmt, rows, input.rowLimit)))
  {
    var h := HeaderLines(input, range);
    var t := AnalyticsTableLines(fmt, TableRowsOf(rows), DimensionNamesOf(input.dimensions));
    var s := SummaryLines(fmt, rows, input.rowLimit);
    if rows == [] {
      assert Unlines(s) == "";
    } else {
      UnlinesAppend(h, t);
      UnlinesAppend(h + t, s);
    }
  }

  // ---------------------------------------------------------------- handler

  /** The header part of the report, appended line by line. */
  method WriteHeader(input: SearchAnalyticsInput, range: Dates.DateRange) returns (output: string)
    ensures output == Unlines(HeaderLines(input, range))
  {
    ghost var done: seq<string> := [];
    output := "";
    var line := "Search Analytics for " + input.siteUrl;
    UnlinesSnoc(done, line);
    done, output := done + [line], output + line + "\n";
    line := "Period: " + range.startDate + " to " + range.endDate;
    UnlinesSnoc(done, line);
    done, output := done + [line], output + line + "\n";
    line := "Dimensions: " + Join(DimensionNamesOf(input.dimensions), ", ");
    UnlinesSnoc(done, line);
    done, output := done + [line], output + line + "\n";
    if input.filters.Some? && |input.filters.value| > 0 {
      line := FiltersLine(input.filters.value);
      UnlinesSnoc(done, line);
      done, output := done + [line], output + line + "\n";
    }
    UnlinesSnoc(done, "");
    done, output := done + [""], output + "\n";
    assert done == HeaderLines(input, range);
  }

  /** The summary part of the report, appended line by line. */
  method WriteSummary(fmt: Renderers, rows: seq<ApiDataRow>, rowLimit: int) returns (text: string)
    requires rows != []
    ensures text == Unlines(SummaryLines(fmt, rows, rowLimit))
  {
    var totalClicks := Total(Clicks(rows));
    var totalImpressions := Total(Impressions(rows));
    var avgCtr := AverageCtr(rows);
    var avgPosition := AveragePosition(rows);
    ghost var done: seq<string> := [""];
    UnlinesOne("");
    text := "\n";
    var line := "--- Summary ---";
    UnlinesSnoc(done, line);
    done, text := done + [line], text + line + "\n";
    assert text == Unlines(done);
    line := "Total Clicks: " + fmt.local(totalClicks);
    UnlinesSnoc(done, line);
    done, text := done + [line], text + line + "\n";
    assert text == Unlines(done);
    line := "Total Impressions: " + fmt.local(totalImpressions);
    UnlinesSnoc(done, line);
    done, text := done + [line], text + line + "\n";
    assert text == Unlines(done);
    line := "Average CTR: " + fmt.fixed(avgCtr * 100.0, 2) + "%";
    UnlinesSnoc(done, line);
    done, text := done + [line], text + line + "\n";
    assert text == Unlines(done);
    line := "Average Position: " + fmt.fixed(avgPosition, 1);
    UnlinesSnoc(done, line);
    done, text := done + [line], text + line + "\n";
    assert text == Unlines(done);
    line := "Rows Returned: " + NatToString(|rows|) + (if |rows| == rowLimit then " (limit reached)" else "");
    UnlinesSnoc(done, line);
    done, text := done + [line], text + line + "\n";
    assert text == Unlines(done);
    assert done == SummaryLines(fmt, rows, rowLimit);
  }

  /** `searchAnalytics`: builds the request, queries, and appends header, table and
      summary. */
  method RunSearchAnalytics(fmt: Renderers, cal: Dates.Calendar, api: SearchConsole, input: SearchAnalyticsInput)
    returns (output: string)
    ensures output == SearchAnalyticsText(fmt, cal, api, input)
  {
    var range := Dates.ParseDateRange(input.startDate, input.endDate, input.days, cal);
    var request := BuildRequest(input, range);
    var response := api.query(input.siteUrl, request);
    if response.Failure? {
      return FormatToolError(response.error);
    }
    var rows := response.value.GetOr([]);
    output := WriteHeader(input, range);
    var table := FormatAnalyticsTable(fmt, TableRowsOf(rows), DimensionNamesOf(input.dimensions));
    output := output + table;
    if |rows| > 0 {
      var summary := WriteSummary(fmt, rows, input.rowLimit);
      output := output + summary;
    }
  }
}
