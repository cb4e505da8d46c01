/** Text tables of src/utils/format.ts: fixed-width cells, separators, the
    analytics table and the list of properties. Number, percent, position and
    date rendering are left abstract, as the functions a `Renderers` value holds. */
module Format {
  import opened Wrappers
  import opened Strings

  /** The locale- and floating-point-dependent renderings, taken as given. */
  datatype Renderers = Renderers(
    grouped: real -> string,        // n.toLocaleString('en-US')
    local: real -> string,          // n.toLocaleString()
    fixed: (real, nat) -> string,   // n.toFixed(digits)
    localeDate: string -> string,   // new Date(s).toLocaleDateString()
    toNumber: string -> Option<real>) // Number(s), None when it is NaN

  function FormatNumber(fmt: Renderers, n: real): string {
    fmt.grouped(n)
  }

  /** `formatPercent(value)` with its default of two decimals. */
  function FormatPercent(fmt: Renderers, value: real): (r: string)
    ensures EndsWith(r, "%")
  {
    fmt.fixed(value * 100.0, 2) + "%"
  }

  function FormatPosition(fmt: Renderers, position: real): string {
    fmt.fixed(position, 1)
  }

  /** `Number(x) || 0` for an optional numeric string: NaN, absence and zero give 0. */
  function NumberOrZero(fmt: Renderers, x: Option<string>): (r: real)
    ensures x.None? || fmt.toNumber(x.value).None? ==> r == 0.0
    ensures x.Some? && fmt.toNumber(x.value).Some? ==> r == fmt.toNumber(x.value).value
  {
    match x
    case None => 0.0
    case Some(s) => fmt.toNumber(s).GetOr(0.0)
  }

  /** The width of column `i`: its entry in `widths`, 20 when there is none. */
  function ColumnWidth(widths: seq<nat>, i: nat): (w: nat)
    ensures i < |widths| ==> w == widths[i]
    ensures i >= |widths| ==> w == 20
  {
    if i < |widths| then widths[i] else 20
  }

  /** One cell: cut to `width - 3` characters plus '...' when too long, else padded. */
  function Cell(col: string, width: nat): (r: string)
    ensures width >= 3 ==> |r| == width
    ensures |col| <= width ==> r == PadEnd(col, width)
    ensures |col| > width && width >= 3 ==> r == col[..width - 3] + "..."
  {
    if |col| > width then SliceTo(col, width - 3) + "..." else PadEnd(col, width)
  }

  /** The cells of a row, one per input column. */
  function Cells(columns: seq<string>, widths: seq<nat>): (r: seq<string>)
    ensures |r| == |columns|
    ensures forall i :: 0 <= i < |columns| ==> r[i] == Cell(columns[i], ColumnWidth(widths, i))
  {
    seq(|columns|, i requires 0 <= i < |columns| => Cell(columns[i], ColumnWidth(widths, i)))
  }

  /** `tableRow`: the cells in column order, separated by ' | '. */
  function TableRow(columns: seq<string>, widths: seq<nat>): (r: string)
    ensures columns == [] ==> r == ""
    ensures |columns| == 1 ==> r == Cell(columns[0], ColumnWidth(widths, 0))
  {
    Join(Cells(columns, widths), " | ")
  }

  /** One more column adds ' | ' and that column's cell at the end of the row. */
  lemma TableRowSnoc(columns: seq<string>, widths: seq<nat>, col: string)
    requires columns != []
    ensures TableRow(columns + [col], widths)
      == TableRow(columns, widths) + " | " + Cell(col, ColumnWidth(widths, |columns|))
  {
    var all, cs := columns + [col], Cells(columns, widths);
    var cells := Cells(all, widths);
    forall i | 0 <= i < |columns|
      ensures cells[i] == cs[i]
    {
      assert all[i] == columns[i];
    }
    assert cells[..|columns|] == cs;
    assert cells[|columns|] == Cell(col, ColumnWidth(widths, |columns|));
    assert Join(cells, " | ") == Join(cells[..|columns|], " | ") + " | " + cells[|columns|];
  }

  function Dashes(widths: seq<nat>): (r: seq<string>)
    ensures |r| == |widths|
    ensures forall i :: 0 <= i < |widths| ==> r[i] == Repeat('-', widths[i])
  {
    seq(|widths|, i requires 0 <= i < |widths| => Repeat('-', widths[i]))
  }

  /** `tableSeparator`: a run of dashes per column, joined by '-+-'. */
  function TableSeparator(widths: seq<nat>): (r: string)
    ensures widths == [] ==> r == ""
    ensures |widths| == 1 ==> r == Repeat('-', widths[0])
  {
    Join(Dashes(widths), "-+-")
  }

  /** One more column adds '-+-' and that column's dashes at the end of the separator. */
  lemma TableSeparatorSnoc(widths: seq<nat>, w: nat)
    requires widths != []
    ensures TableSeparator(widths + [w]) == TableSeparator(widths) + "-+-" + Repeat('-', w)
  {
    var ds := Dashes(widths + [w]);
    assert ds[..|widths|] == Dashes(widths);
    assert Join(ds, "-+-") == Join(ds[..|widths|], "-+-") + "-+-" + ds[|widths|];
  }

  /** A separator line holds nothing but dashes and the '+' of each column break. */
  lemma {:induction false} SeparatorChars(widths: seq<nat>)
    ensures forall i :: 0 <= i < |TableSeparator(widths)| ==> TableSeparator(widths)[i] in "-+"
    decreases |widths|
  {
    if |widths| > 1 {
      var n := |widths| - 1;
      SeparatorChars(widths[..n]);
      assert Dashes(widths)[..n] == Dashes(widths[..n]);
      var init, last := TableSeparator(widths[..n]), Repeat('-', widths[n]);
      assert TableSeparator(widths) == init + "-+-" + last;
      forall i | 0 <= i < |TableSeparator(widths)|
        ensures TableSeparator(widths)[i] in "-+"
      {
        if i >= |init| + 3 {
          assert TableSeparator(widths)[i] == last[i - |init| - 3];
        }
      }
    }
  }

  function Sum(ws: seq<nat>): nat
  {
    if ws == [] then 0 else Sum(ws[..|ws| - 1]) + ws[|ws| - 1]
  }

  /** Every cell has exactly its column's width once widths are at least 3. */
  lemma {:induction false} CellsTotalLength(columns: seq<string>, widths: seq<nat>)
    requires |columns| <= |widths|
    requires forall i :: 0 <= i < |widths| ==> widths[i] >= 3
    ensures TotalLength(Cells(columns, widths)) == Sum(widths[..|columns|])
    decreases |columns|
  {
    var cs := Cells(columns, widths);
    if |columns| > 0 {
      var n := |columns| - 1;
      var init := columns[..n];
      CellsTotalLength(init, widths);
      assert cs[..n] == Cells(init, widths);
      assert widths[..|columns|][..n] == widths[..n];
    }
  }

  /** A row over columns that all have a width of at least 3 has a fixed length:
      the sum of the widths plus 3 for each ' | '. */
  lemma TableRowLength(columns: seq<string>, widths: seq<nat>)
    requires 0 < |columns| == |widths|
    requires forall i :: 0 <= i < |widths| ==> widths[i] >= 3
    ensures |TableRow(columns, widths)| == Sum(widths) + 3 * (|widths| - 1)
  {
    CellsTotalLength(columns, widths);
    JoinLength(Cells(columns, widths), " | ");
    assert widths[..|columns|] == widths;
  }

  lemma {:induction false} DashesTotalLength(widths: seq<nat>)
    ensures TotalLength(Dashes(widths)) == Sum(widths)
    decreases |widths|
  {
    if |widths| > 0 {
      var n := |widths| - 1;
      DashesTotalLength(widths[..n]);
      assert Dashes(widths)[..n] == Dashes(widths[..n]);
    }
  }

  /** The separator is w dashes per width joined by '-+-'. */
  lemma TableSeparatorLength(widths: seq<nat>)
    requires |widths| > 0
    ensures |TableSeparator(widths)| == Sum(widths) + 3 * (|widths| - 1)
  {
    DashesTotalLength(widths);
    JoinLength(Dashes(widths), "-+-");
  }

  // ---------------------------------------------------------------------------
  // The search analytics table

  /** A row of analytics data; any field may be missing. */
  datatype AnalyticsRow = AnalyticsRow(
    keys: Option<seq<string>>,
    clicks: Option<real>,
    impressions: Option<real>,
    ctr: Option<real>,
    position: Option<real>)

  const NoDataMessage := "No data found for the specified criteria."

  function AnalyticsHeaders(dimensions: seq<string>): (r: seq<string>)
    ensures |r| == |dimensions| + 4
    ensures r[..|dimensions|] == dimensions
    ensures r[|dimensions|..] == ["Clicks", "Impressions", "CTR", "Position"]
  {
    dimensions + ["Clicks", "Impressions", "CTR", "Position"]
  }

  function AnalyticsWidths(dimensions: seq<string>): (r: seq<nat>)
    ensures |r| == |dimensions| + 4
    ensures forall i :: 0 <= i < |dimensions| ==> r[i] == 40
    ensures r[|dimensions|..] == [10, 12, 8, 10]
  {
    seq(|dimensions|, _ => 40) + [10, 12, 8, 10]
  }

  /** The cells of one data row: its keys, or '(unknown)' per dimension, then the
      four metrics, each 0 when missing. */
  function AnalyticsValues(fmt: Renderers, row: AnalyticsRow, dimensions: seq<string>): (r: seq<string>)
    ensures row.keys.None? ==> |r| == |dimensions| + 4 && forall i :: 0 <= i < |dimensions| ==> r[i] == "(unknown)"
    ensures row.keys.Some? ==> |r| == |row.keys.value| + 4 && r[..|row.keys.value|] == row.keys.value
    ensures r[|r| - 4..] == [FormatNumber(fmt, row.clicks.GetOr(0.0)), FormatNumber(fmt, row.impressions.GetOr(0.0)),
                             FormatPercent(fmt, row.ctr.GetOr(0.0)), FormatPosition(fmt, row.position.GetOr(0.0))]
  {
    var keys := row.keys.GetOr(seq(|dimensions|, _ => "(unknown)"));
    keys + [FormatNumber(fmt, row.clicks.GetOr(0.0)), FormatNumber(fmt, row.impressions.GetOr(0.0)),
            FormatPercent(fmt, row.ctr.GetOr(0.0)), FormatPosition(fmt, row.position.GetOr(0.0))]
  }

  function AnalyticsRowLine(fmt: Renderers, row: AnalyticsRow, dimensions: seq<string>): string
  {
    TableRow(AnalyticsValues(fmt, row, dimensions), AnalyticsWidths(dimensions))
  }

  function AnalyticsRowLines(fmt: Renderers, rows: seq<AnalyticsRow>, dimensions: seq<string>): (r: seq<string>)
    ensures |r| == |rows|
  {
    if rows == [] then []
    else AnalyticsRowLines(fmt, rows[..|rows| - 1], dimensions) + [AnalyticsRowLine(fmt, rows[|rows| - 1], dimensions)]
  }

  /** The data lines are the rows' lines, one per row and in order. */
  lemma {:induction false} AnalyticsRowLinesAt(fmt: Renderers, rows: seq<AnalyticsRow>, dimensions: seq<string>, i: nat)
    requires i < |rows|
    ensures AnalyticsRowLines(fmt, rows, dimensions)[i] == AnalyticsRowLine(fmt, rows[i], dimensions)
  {
    if i < |rows| - 1 {
      AnalyticsRowLinesAt(fmt, rows[..|rows| - 1], dimensions, i);
    }
  }

  /** The lines of a non-empty table: header, separator, one line per row. */
  function AnalyticsTableLines(fmt: Renderers, rows: seq<AnalyticsRow>, dimensions: seq<string>): (r: seq<string>)
    ensures |r| == |rows| + 2
    ensures r[0] == TableRow(AnalyticsHeaders(dimensions), AnalyticsWidths(dimensions))
    ensures r[1] == TableSeparator(AnalyticsWidths(dimensions))
    ensures r[2..] == AnalyticsRowLines(fmt, rows, dimensions)
  {
    [TableRow(AnalyticsHeaders(dimensions), AnalyticsWidths(dimensions)),
     TableSeparator(AnalyticsWidths(dimensions))] + AnalyticsRowLines(fmt, rows, dimensions)
  }

  function AnalyticsTableText(fmt: Renderers, rows: seq<AnalyticsRow>, dimensions: seq<string>): string
  {
    if rows == [] then NoDataMessage else Unlines(AnalyticsTableLines(fmt, rows, dimensions))
  }

  /** The no-data message is the output exactly for an empty row list. */
  lemma AnalyticsEmptyIff(fmt: Renderers, rows: seq<AnalyticsRow>, dimensions: seq<string>)
    ensures AnalyticsTableText(fmt, rows, dimensions) == NoDataMessage <==> rows == []
  {
    if rows != [] {
      var lines := AnalyticsTableLines(fmt, rows, dimensions);
      var t := Unlines(lines);
      assert t[|t| - 1] == '\n';
      assert NoDataMessage[|NoDataMessage| - 1] == '.';
    }
  }

  /** Every header cell of the analytics table fits its width exactly. */
  lemma AnalyticsHeaderLength(dimensions: seq<string>)
    ensures |TableRow(AnalyticsHeaders(dimensions), AnalyticsWidths(dimensions))|
      == 40 * |dimensions| + 40 + 3 * (|dimensions| + 3)
  {
    var ws := AnalyticsWidths(dimensions);
    TableRowLength(AnalyticsHeaders(dimensions), ws);
    SumAnalyticsWidths(dimensions);
  }

  lemma {:induction false} SumAppend(a: seq<nat>, b: seq<nat>)
    ensures Sum(a + b) == Sum(a) + Sum(b)
    decreases |b|
  {
    if b == [] {
      assert a + b == a;
    } else {
      var b' := b[..|b| - 1];
      assert (a + b)[..|a + b| - 1] == a + b';
      SumAppend(a, b');
    }
  }

  lemma SumAnalyticsWidths(dimensions: seq<string>)
    ensures Sum(AnalyticsWidths(dimensions)) == 40 * |dimensions| + 40
  {
    var metrics: seq<nat> := [10, 12, 8, 10];
    SumAppend(seq(|dimensions|, _ => 40), metrics);
    SumForties(|dimensions|);
    assert metrics[..3] == [10, 12, 8];
    assert [10, 12, 8][..2] == [10, 12];
    assert [10, 12][..1] == [10];
    assert [10][..0] == [];
  }

  lemma {:induction false} SumForties(k: nat)
    ensures Sum(seq(k, _ => 40)) == 40 * k
  {
    if k > 0 {
      SumForties(k - 1);
      assert seq(k, _ => 40)[..k - 1] == seq(k - 1, _ => 40);
    }
  }

  lemma AnalyticsStep(fmt: Renderers, rows: seq<AnalyticsRow>, dimensions: seq<string>, head: seq<string>, i: nat)
    requires i < |rows|
    ensures Unlines(head + AnalyticsRowLines(fmt, rows[..i + 1], dimensions))
      == Unlines(head + AnalyticsRowLines(fmt, rows[..i], dimensions)) + AnalyticsRowLine(fmt, rows[i], dimensions) + "\n"
  {
    var before := AnalyticsRowLines(fmt, rows[..i], dimensions);
    var line := AnalyticsRowLine(fmt, rows[i], dimensions);
    AnalyticsRowLinesSnoc(fmt, rows, dimensions, i);
    assert head + (before + [line]) == (head + before) + [line];
    UnlinesSnoc(head + before, line);
  }

  /** One more row adds its line at the end. */
  lemma AnalyticsRowLinesSnoc(fmt: Renderers, rows: seq<AnalyticsRow>, dimensions: seq<string>, i: nat)
    requires i < |rows|
    ensures AnalyticsRowLines(fmt, rows[..i + 1], dimensions)
      == AnalyticsRowLines(fmt, rows[..i], dimensions) + [AnalyticsRowLine(fmt, rows[i], dimensions)]
  {
    var prefix := rows[..i + 1];
    assert prefix[..|prefix| - 1] == rows[..i];
    assert prefix[|prefix| - 1] == rows[i];
  }

  /** `formatAnalyticsTable`: builds the text with `+=`, one row at a time. */
  method FormatAnalyticsTable(fmt: Renderers, rows: seq<AnalyticsRow>, dimensions: seq<string>)
    returns (output: string)
    ensures output == AnalyticsTableText(fmt, rows, dimensions)
  {
    if |rows| == 0 {
      return NoDataMessage;
    }
    var headers := dimensions + ["Clicks", "Impressions", "CTR", "Position"];
    var widths: seq<nat> := seq(|dimensions|, _ => 40);
    widths := widths + [10, 12, 8, 10];
    assert headers == AnalyticsHeaders(dimensions) && widths == AnalyticsWidths(dimensions);
    output := TableRow(headers, widths) + "\n";
    output := output + TableSeparator(widths) + "\n";
    ghost var head := [TableRow(headers, widths), TableSeparator(widths)];
    UnlinesTwo(head[0], head[1]);
    for i := 0 to |rows|
      invariant output == Unlines(head + AnalyticsRowLines(fmt, rows[..i], dimensions))
    {
      var values := AnalyticsValues(fmt, rows[i], dimensions);
      AnalyticsStep(fmt, rows, dimensions, head, i);
      output := output + TableRow(values, widths) + "\n";
    }
    assert rows[..|rows|] == rows;
  }

  // ---------------------------------------------------------------------------
  // The list of properties

  datatype SiteEntry = SiteEntry(siteUrl: Option<string>, permissionLevel: Option<string>)

  const NoSitesMessage := "No Search Console properties found."

  const SiteWidths: seq<nat> := [50, 20]

  /** 'property' for exactly one site, 'properties' otherwise. */
  function PropertyNoun(n: nat): (r: string)
    ensures r == "property" <==> n == 1
  {
    if n == 1 then "property" else "properties"
  }

  function SiteLine(site: SiteEntry): string
  {
    TableRow([site.siteUrl.GetOr(""), site.permissionLevel.GetOr("")], SiteWidths)
  }

  function SiteLines(sites: seq<SiteEntry>): (r: seq<string>)
    ensures |r| == |sites|
  {
    if sites == [] then [] else SiteLines(sites[..|sites| - 1]) + [SiteLine(sites[|sites| - 1])]
  }

  lemma {:induction false} SiteLinesAt(sites: seq<SiteEntry>, i: nat)
    requires i < |sites|
    ensures SiteLines(sites)[i] == SiteLine(sites[i])
  {
    if i < |sites| - 1 {
      SiteLinesAt(sites[..|sites| - 1], i);
    }
  }

  /** The lines of a non-empty list: the count, a blank line, header, separator, one line per site. */
  function SitesListLines(sites: seq<SiteEntry>): (r: seq<string>)
    ensures |r| == |sites| + 4
    ensures r[0] == "Found " + NatToString(|sites|) + " Search Console " + PropertyNoun(|sites|) + ":"
    ensures r[1] == ""
    ensures r[2] == TableRow(["Site URL", "Permission"], SiteWidths)
    ensures r[3] == TableSeparator(SiteWidths)
    ensures r[4..] == SiteLines(sites)
  {
    ["Found " + NatToString(|sites|) + " Search Console " + PropertyNoun(|sites|) + ":", "",
     TableRow(["Site URL", "Permission"], SiteWidths), TableSeparator(SiteWidths)] + SiteLines(sites)
  }

  function SitesListText(sites: seq<SiteEntry>): string
  {
    if sites == [] then NoSitesMessage else Unlines(SitesListLines(sites))
  }

  lemma SitesEmptyIff(sites: seq<SiteEntry>)
    ensures SitesListText(sites) == NoSitesMessage <==> sites == []
  {
    if sites != [] {
      var t := Unlines(SitesListLines(sites));
      assert t[|t| - 1] == '\n';
      assert NoSitesMessage[|NoSitesMessage| - 1] == '.';
    }
  }

  /** Every data line of the properties list is 73 characters wide. */
  lemma SiteLineLength(sites: seq<SiteEntry>, i: nat)
    requires i < |sites|
    ensures |SiteLines(sites)[i]| == 73
  {
    SiteLinesAt(sites, i);
    TableRowLength([sites[i].siteUrl.GetOr(""), sites[i].permissionLevel.GetOr("")], SiteWidths);
    assert Sum(SiteWidths) == 70 by {
      assert SiteWidths[..1] == [50];
      assert [50][..0] == [];
    }
  }

  /** The title line and the blank line after it are the one `:\n\n` that
      `formatSitesList` appends after the title. */
  lemma TitleThenBlank(t: string)
    ensures t + ":" + "\n" + "" + "\n" == t + ":\n\n"
  {
    assert ":" + "\n" + "" + "\n" == ":\n\n";
  }

  /** The first four lines of the sites listing, as text. */
  lemma SitesHeadText(sites: seq<SiteEntry>)
    requires |sites| > 0
    ensures Unlines(SitesListLines(sites)[..4])
      == "Found " + NatToString(|sites|) + " Search Console " + PropertyNoun(|sites|) + ":\n\n"
         + TableRow(["Site URL", "Permission"], SiteWidths) + "\n" + TableSeparator(SiteWidths) + "\n"
  {
    var r := SitesListLines(sites);
    var title := "Found " + NatToString(|sites|) + " Search Console " + PropertyNoun(|sites|);
    assert r[..4] == [title + ":", "", r[2], r[3]];
    UnlinesFour(title + ":", "", r[2], r[3]);
    TitleThenBlank(title);
  }

  lemma SitesStep(sites: seq<SiteEntry>, head: seq<string>, i: nat)
    requires i < |sites|
    ensures Unlines(head + SiteLines(sites[..i + 1]))
      == Unlines(head + SiteLines(sites[..i])) + SiteLine(sites[i]) + "\n"
  {
    assert sites[..i + 1][..i] == sites[..i];
    assert head + SiteLines(sites[..i + 1]) == head + SiteLines(sites[..i]) + [SiteLine(sites[i])];
    UnlinesSnoc(head + SiteLines(sites[..i]), SiteLine(sites[i]));
  }

  /** `formatSitesList`: builds the list with `+=`, one site at a time. */
  method FormatSitesList(sites: seq<SiteEntry>) returns (output: string)
    ensures output == SitesListText(sites)
  {
    if |sites| == 0 {
      return NoSitesMessage;
    }
    output := "Found " + NatToString(|sites|) + " Search Console "
      + (if |sites| == 1 then "property" else "properties") + ":\n\n";
    var headers := ["Site URL", "Permission"];
    var widths := SiteWidths;
    output := output + TableRow(headers, widths) + "\n";
    output := output + TableSeparator(widths) + "\n";
    ghost var head := SitesListLines(sites)[..4];
    SitesHeadText(sites);
    assert head + SiteLines(sites[..0]) == head;
    for i := 0 to |sites|
      invariant output == Unlines(head + SiteLines(sites[..i]))
    {
      var site := sites[i];
      SitesStep(sites, head, i);
      output := output + TableRow([site.siteUrl.GetOr(""), site.permissionLevel.GetOr("")], widths) + "\n";
    }
    assert sites[..|sites|] == sites;
    assert head + SiteLines(sites) == SitesListLines(sites);
  }
}
