/** The sitemap tools of src/tools/sitemaps.ts: the listing report and the
    submit and delete confirmations. Each tool returns the formatted error text
    when the client throws. */
module Sitemaps {
  import opened Wrappers
  import opened Strings
  import opened Errors
  import opened Inputs
  import opened GoogleApi
  import opened Format

  const SitemapHeaders: seq<string> := ["Sitemap URL", "Type", "Submitted", "Last Downloaded", "Warnings", "Errors"]
  const SitemapWidths: seq<nat> := [50, 12, 12, 16, 10, 10]

  function NoSitemapsMessage(siteUrl: string): string {
    "No sitemaps found for " + siteUrl
  }

  /** '' for exactly one sitemap, 's' otherwise. */
  function PluralSuffix(n: nat): (r: string)
    ensures r == "" <==> n == 1
  {
    if n == 1 then "" else "s"
  }

  /** A date column: the locale rendering when the timestamp is non-empty, else 'N/A'. */
  function DateCell(fmt: Renderers, date: Option<string>): (r: string)
    ensures !Truthy(date) ==> r == "N/A"
    ensures Truthy(date) ==> r == fmt.localeDate(date.value)
  {
    if Truthy(date) then fmt.localeDate(date.value) else "N/A"
  }

  /** The six cells of a sitemap's row. */
  function SitemapCells(fmt: Renderers, sitemap: WmxSitemap): (r: seq<string>)
    ensures |r| == 6
    ensures r[0] == sitemap.path.GetOr("Unknown") && r[1] == sitemap.sitemapType.GetOr("Unknown")
    ensures r[2] == DateCell(fmt, sitemap.lastSubmitted) && r[3] == DateCell(fmt, sitemap.lastDownloaded)
    ensures r[4] == FormatNumber(fmt, NumberOrZero(fmt, sitemap.warnings))
    ensures r[5] == FormatNumber(fmt, NumberOrZero(fmt, sitemap.errors))
  {
    [sitemap.path.GetOr("Unknown"),
     sitemap.sitemapType.GetOr("Unknown"),
     DateCell(fmt, sitemap.lastSubmitted),
     DateCell(fmt, sitemap.lastDownloaded),
     FormatNumber(fmt, NumberOrZero(fmt, sitemap.warnings)),
     FormatNumber(fmt, NumberOrZero(fmt, sitemap.errors))]
  }

  /** `${content.type}`: a missing type shows as 'undefined'. */
  function ContentLine(fmt: Renderers, content: WmxSitemapContent): string {
    "    └─ " + content.contentType.GetOr("undefined") + ": "
      + FormatNumber(fmt, NumberOrZero(fmt, content.submitted)) + " submitted, "
      + FormatNumber(fmt, NumberOrZero(fmt, content.indexed)) + " indexed"
  }

  function ContentLines(fmt: Renderers, contents: seq<WmxSitemapContent>): (r: seq<string>)
    ensures |r| == |contents|
  {
    if contents == [] then []
    else ContentLines(fmt, contents[..|contents| - 1]) + [ContentLine(fmt, contents[|contents| - 1])]
  }

  /** The contents of a sitemap, none when the list is missing. */
  function ContentsOf(sitemap: WmxSitemap): seq<WmxSitemapContent> {
    sitemap.contents.GetOr([])
  }

  /** A sitemap's table row followed by one line per content entry. */
  function SitemapBlock(fmt: Renderers, sitemap: WmxSitemap): seq<string>
  {
    [TableRow(SitemapCells(fmt, sitemap), SitemapWidths)] + ContentLines(fmt, ContentsOf(sitemap))
  }

  lemma SitemapBlockShape(fmt: Renderers, sitemap: WmxSitemap)
    ensures var r := SitemapBlock(fmt, sitemap);
      && |r| == 1 + |ContentsOf(sitemap)|
      && r[0] == TableRow(SitemapCells(fmt, sitemap), SitemapWidths)
      && r[1..] == ContentLines(fmt, ContentsOf(sitemap))
  {
    var r := SitemapBlock(fmt, sitemap);
    assert r[1..] == ContentLines(fmt, ContentsOf(sitemap));
  }

  function SitemapBlocks(fmt: Renderers, sitemaps: seq<WmxSitemap>): seq<string>
  {
    if sitemaps == [] then []
    else SitemapBlocks(fmt, sitemaps[..|sitemaps| - 1]) + SitemapBlock(fmt, sitemaps[|sitemaps| - 1])
  }

  /** The number of content entries over all sitemaps. */
  function ContentCount(sitemaps: seq<WmxSitemap>): nat
  {
    if sitemaps == [] then 0 else ContentCount(sitemaps[..|sitemaps| - 1]) + |ContentsOf(sitemaps[|sitemaps| - 1])|
  }

  /** One table row per sitemap and one line per content entry. */
  lemma {:induction false} SitemapBlocksLength(fmt: Renderers, sitemaps: seq<WmxSitemap>)
    ensures |SitemapBlocks(fmt, sitemaps)| == |sitemaps| + ContentCount(sitemaps)
  {
    if sitemaps != [] {
      SitemapBlocksLength(fmt, sitemaps[..|sitemaps| - 1]);
    }
  }

  /** The lines of a non-empty listing. */
  function SitemapsListLines(fmt: Renderers, siteUrl: string, sitemaps: seq<WmxSitemap>): (r: seq<string>)
    ensures |r| >= 7
    ensures r[..7] == ["Sitemaps for " + siteUrl, Repeat('=', 50), "",
                       "Found " + NatToString(|sitemaps|) + " sitemap" + PluralSuffix(|sitemaps|) + ":", "",
                       TableRow(SitemapHeaders, SitemapWidths), TableSeparator(SitemapWidths)]
    ensures r[7..] == SitemapBlocks(fmt, sitemaps)
  {
    SitemapsHead(siteUrl, |sitemaps|) + SitemapBlocks(fmt, sitemaps)
  }

  /** The seven heading lines of a listing of `count` sitemaps. */
  function SitemapsHead(siteUrl: string, count: nat): seq<string> {
    SitemapsTitle(siteUrl, count) + TableHead(SitemapHeaders, SitemapWidths)
  }

  function SitemapsTitle(siteUrl: string, count: nat): seq<string> {
    ["Sitemaps for " + siteUrl, Repeat('=', 50), "",
     "Found " + NatToString(count) + " sitemap" + PluralSuffix(count) + ":", ""]
  }

  /** A table's header row and its separator line. */
  function TableHead(headers: seq<string>, widths: seq<nat>): seq<string> {
    [TableRow(headers, widths), TableSeparator(widths)]
  }

  /** `formatSitemapsList`. */
  function SitemapsListText(fmt: Renderers, siteUrl: string, sitemaps: seq<WmxSitemap>): (r: string)
    ensures sitemaps != [] ==> StartsWith(r, "Sitemaps for " + siteUrl + "\n")
  {
    if sitemaps == [] then NoSitemapsMessage(siteUrl)
    else
      UnlinesStartsWith(SitemapsListLines(fmt, siteUrl, sitemaps));
      Unlines(SitemapsListLines(fmt, siteUrl, sitemaps))
  }

  /** A listing has seven lines of heading, then a row per sitemap and a line per content entry. */
  lemma SitemapsListLength(fmt: Renderers, siteUrl: string, sitemaps: seq<WmxSitemap>)
    ensures |SitemapsListLines(fmt, siteUrl, sitemaps)| == 7 + |sitemaps| + ContentCount(sitemaps)
  {
    SitemapBlocksLength(fmt, sitemaps);
  }

  /** The no-sitemaps message is the output exactly for an empty list. */
  lemma SitemapsEmptyIff(fmt: Renderers, siteUrl: string, sitemaps: seq<WmxSitemap>)
    ensures SitemapsListText(fmt, siteUrl, sitemaps) == NoSitemapsMessage(siteUrl) <==> sitemaps == []
  {
    if sitemaps != [] {
      var lines := SitemapsListLines(fmt, siteUrl, sitemaps);
      assert lines[0] == "Sitemaps for " + siteUrl;
      UnlinesHead(lines);
      assert NoSitemapsMessage(siteUrl)[0] == 'N';
    }
  }

  lemma ContentLinesSnoc(fmt: Renderers, contents: seq<WmxSitemapContent>, j: nat)
    requires j < |contents|
    ensures ContentLines(fmt, contents[..j + 1]) == ContentLines(fmt, contents[..j]) + [ContentLine(fmt, contents[j])]
  {
    var prefix := contents[..j + 1];
    assert prefix[..|prefix| - 1] == contents[..j];
  }

  lemma SitemapBlocksSnoc(fmt: Renderers, sitemaps: seq<WmxSitemap>, i: nat)
    requires i < |sitemaps|
    ensures SitemapBlocks(fmt, sitemaps[..i + 1]) == SitemapBlocks(fmt, sitemaps[..i]) + SitemapBlock(fmt, sitemaps[i])
  {
    var prefix := sitemaps[..i + 1];
    assert prefix[..|prefix| - 1] == sitemaps[..i];
  }

  /** The heading: title, rule, count and the table's header and separator. */
  method WriteSitemapsHead(siteUrl: string, count: nat) returns (text: string)
    ensures text == Unlines(SitemapsHead(siteUrl, count))
  {
    var title := "Sitemaps for " + siteUrl;
    var found := "Found " + NatToString(count) + " sitemap" + PluralSuffix(count) + ":";
    ghost var done: seq<string> := [];
    text := AppendLine("", done, title);
    done := done + [title];
    text := AppendLine(text, done, Repeat('=', 50));
    done := done + [Repeat('=', 50)];
    text := AppendLine(text, done, "");
    done := done + [""];
    text := AppendLine(text, done, found);
    done := done + [found];
    text := AppendLine(text, done, "");
    done := done + [""];
    assert done == SitemapsTitle(siteUrl, count);
    text := WriteTableHead(text, done, SitemapHeaders, SitemapWidths);
  }

  /** A table's header row and separator, after the lines already written. */
  method WriteTableHead(text: string, ghost done: seq<string>, headers: seq<string>, widths: seq<nat>)
    returns (r: string)
    requires text == Unlines(done)
    ensures r == Unlines(done + TableHead(headers, widths))
  {
    var header := TableRow(headers, widths);
    r := AppendLine(text, done, header);
    r := AppendLine(r, done + [header], TableSeparator(widths));
    assert done + [header] + [TableSeparator(widths)] == done + TableHead(headers, widths);
  }

  /** The inner loop: one line per content entry. */
  method WriteContents(fmt: Renderers, text: string, ghost done: seq<string>, contents: seq<WmxSitemapContent>)
    returns (r: string)
    requires text == Unlines(done)
    ensures r == Unlines(done + ContentLines(fmt, contents))
  {
    r := text;
    assert done + ContentLines(fmt, contents[..0]) == done;
    for j := 0 to |contents|
      invariant r == Unlines(done + ContentLines(fmt, contents[..j]))
    {
      ContentLinesSnoc(fmt, contents, j);
      ghost var before := done + ContentLines(fmt, contents[..j]);
      assert done + ContentLines(fmt, contents[..j + 1]) == before + [ContentLine(fmt, contents[j])];
      r := AppendLine(r, before, ContentLine(fmt, contents[j]));
    }
    assert contents[..|contents|] == contents;
  }

  /** A sitemap's lines after `done`: its row, then its content lines. */
  lemma SitemapBlockAfter(fmt: Renderers, done: seq<string>, sitemap: WmxSitemap, row: string)
    requires row == TableRow(SitemapCells(fmt, sitemap), SitemapWidths)
    ensures done + SitemapBlock(fmt, sitemap) == (done + [row]) + ContentLines(fmt, ContentsOf(sitemap))
  {
  }

  /** One sitemap: its table row, then its content lines when it has any. */
  method WriteSitemap(fmt: Renderers, text: string, ghost done: seq<string>, sitemap: WmxSitemap) returns (r: string)
    requires text == Unlines(done)
    ensures r == Unlines(done + SitemapBlock(fmt, sitemap))
  {
    var row := TableRow(SitemapCells(fmt, sitemap), SitemapWidths);
    SitemapBlockAfter(fmt, done, sitemap, row);
    r := AppendLine(text, done, row);
    if sitemap.contents.Some? && |sitemap.contents.value| > 0 {
      r := WriteContents(fmt, r, done + [row], sitemap.contents.value);
    } else {
      assert ContentsOf(sitemap) == [];
      assert (done + [row]) + ContentLines(fmt, []) == done + [row];
    }
  }

  lemma BlocksSnoc(fmt: Renderers, done: seq<string>, sitemaps: seq<WmxSitemap>, i: nat)
    requires i < |sitemaps|
    ensures done + SitemapBlocks(fmt, sitemaps[..i + 1]) == (done + SitemapBlocks(fmt, sitemaps[..i])) + SitemapBlock(fmt, sitemaps[i])
  {
    SitemapBlocksSnoc(fmt, sitemaps, i);
  }

  /** The outer loop: each sitemap's block in turn. */
  method WriteSitemaps(fmt: Renderers, text: string, ghost done: seq<string>, sitemaps: seq<WmxSitemap>)
    returns (r: string)
    requires text == Unlines(done)
    ensures r == Unlines(done + SitemapBlocks(fmt, sitemaps))
  {
    r := text;
    assert done + SitemapBlocks(fmt, sitemaps[..0]) == done;
    for i := 0 to |sitemaps|
      invariant r == Unlines(done + SitemapBlocks(fmt, sitemaps[..i]))
    {
      BlocksSnoc(fmt, done, sitemaps, i);
      r := WriteSitemap(fmt, r, done + SitemapBlocks(fmt, sitemaps[..i]), sitemaps[i]);
    }
    assert sitemaps[..|sitemaps|] == sitemaps;
  }

  /** `formatSitemapsList`: the heading, then each sitemap in turn. */
  method FormatSitemapsList(fmt: Renderers, siteUrl: string, sitemaps: seq<WmxSitemap>) returns (output: string)
    ensures output == SitemapsListText(fmt, siteUrl, sitemaps)
  {
    if |sitemaps| == 0 {
      return NoSitemapsMessage(siteUrl);
    }
    output := WriteSitemapsHead(siteUrl, |sitemaps|);
    output := WriteSitemaps(fmt, output, SitemapsHead(siteUrl, |sitemaps|), sitemaps);
  }

  // ---------------------------------------------------------------- tools

  /** `listSitemaps`: a missing list is an empty one. */
  function ListSitemapsText(fmt: Renderers, api: SearchConsole, input: ListSitemapsInput): (r: string)
    ensures api.listSitemaps(input.siteUrl).Failure? ==> StartsWith(r, "Error: ")
    ensures api.listSitemaps(input.siteUrl).Success? && api.listSitemaps(input.siteUrl).value.GetOr([]) == [] ==>
      r == NoSitemapsMessage(input.siteUrl)
    ensures api.listSitemaps(input.siteUrl).Success? && api.listSitemaps(input.siteUrl).value.GetOr([]) != [] ==>
      StartsWith(r, "Sitemaps for " + input.siteUrl + "\n")
  {
    match api.listSitemaps(input.siteUrl)
    case Failure(e) =>
      StartsWithShorter(FormatToolError(e), "Error: ", FormatGoogleApiError(e).message);
      FormatToolError(e)
    case Success(sitemaps) => SitemapsListText(fmt, input.siteUrl, sitemaps.GetOr([]))
  }

  method ListSitemaps(fmt: Renderers, api: SearchConsole, input: ListSitemapsInput) returns (output: string)
    ensures output == ListSitemapsText(fmt, api, input)
  {
    var response := api.listSitemaps(input.siteUrl);
    if response.Failure? {
      return FormatToolError(response.error);
    }
    output := FormatSitemapsList(fmt, input.siteUrl, response.value.GetOr([]));
  }

  function SubmittedMessage(input: SitemapUrlInput): string {
    "Successfully submitted sitemap: " + input.sitemapUrl + "\n\n"
      + "The sitemap has been added to Google Search Console for " + input.siteUrl + ".\n"
      + "Google will process it shortly. Use 'gsc.list_sitemaps' to check the status."
  }

  function DeletedMessage(input: SitemapUrlInput): string {
    "Successfully deleted sitemap: " + input.sitemapUrl + "\n\n"
      + "The sitemap has been removed from Google Search Console for " + input.siteUrl + "."
  }

  /** `submitSitemap`: the sitemap URL is the feed path. */
  function SubmitSitemapText(api: SearchConsole, input: SitemapUrlInput): (r: string)
    ensures api.submitSitemap(input.siteUrl, input.sitemapUrl).Pass? ==> r == SubmittedMessage(input)
    ensures api.submitSitemap(input.siteUrl, input.sitemapUrl).Fail? ==>
      r == FormatToolError(api.submitSitemap(input.siteUrl, input.sitemapUrl).error)
  {
    match api.submitSitemap(input.siteUrl, input.sitemapUrl)
    case Fail(e) => FormatToolError(e)
    case Pass => SubmittedMessage(input)
  }

  /** `deleteSitemap`. */
  function DeleteSitemapText(api: SearchConsole, input: SitemapUrlInput): (r: string)
    ensures api.deleteSitemap(input.siteUrl, input.sitemapUrl).Pass? ==> r == DeletedMessage(input)
    ensures api.deleteSitemap(input.siteUrl, input.sitemapUrl).Fail? ==>
      r == FormatToolError(api.deleteSitemap(input.siteUrl, input.sitemapUrl).error)
  {
    match api.deleteSitemap(input.siteUrl, input.sitemapUrl)
    case Fail(e) => FormatToolError(e)
    case Pass => DeletedMessage(input)
  }

  /** Both confirmations name the sitemap and the site. */
  lemma SubmittedNamesBothUrls(input: SitemapUrlInput)
    ensures Strings.Contains(SubmittedMessage(input), input.sitemapUrl)
    ensures Strings.Contains(SubmittedMessage(input), input.siteUrl)
  {
    var m := SubmittedMessage(input);
    var a := "Successfully submitted sitemap: ";
    var b := "\n\n" + "The sitemap has been added to Google Search Console for ";
    var c := ".\n" + "Google will process it shortly. Use 'gsc.list_sitemaps' to check the status.";
    assert m == a + input.sitemapUrl + (b + input.siteUrl + c);
    ContainsMiddle(a, input.sitemapUrl, b + input.siteUrl + c);
    assert m == (a + input.sitemapUrl + b) + input.siteUrl + c;
    ContainsMiddle(a + input.sitemapUrl + b, input.siteUrl, c);
  }

  lemma DeletedNamesBothUrls(input: SitemapUrlInput)
    ensures Strings.Contains(DeletedMessage(input), input.sitemapUrl)
    ensures Strings.Contains(DeletedMessage(input), input.siteUrl)
  {
    var m := DeletedMessage(input);
    var a := "Successfully deleted sitemap: ";
    var b := "\n\n" + "The sitemap has been removed from Google Search Console for ";
    var c := ".";
    assert m == a + input.sitemapUrl + (b + input.siteUrl + c);
    ContainsMiddle(a, input.sitemapUrl, b + input.siteUrl + c);
    assert m == (a + input.sitemapUrl + b) + input.siteUrl + c;
    ContainsMiddle(a + input.sitemapUrl + b, input.siteUrl, c);
  }

  /** A client failure in any of the three tools is returned as the error text. */
  lemma FailuresAreText(fmt: Renderers, api: SearchConsole, site: string, input: SitemapUrlInput)
    ensures api.listSitemaps(site).Failure? ==>
      ListSitemapsText(fmt, api, ListSitemapsInput(site)) == FormatToolError(api.listSitemaps(site).error)
    ensures api.submitSitemap(input.siteUrl, input.sitemapUrl).Fail? ==>
      SubmitSitemapText(api, input) == FormatToolError(api.submitSitemap(input.siteUrl, input.sitemapUrl).error)
    ensures api.deleteSitemap(input.siteUrl, input.sitemapUrl).Fail? ==>
      DeleteSitemapText(api, input) == FormatToolError(api.deleteSitemap(input.siteUrl, input.sitemapUrl).error)
  {
    if api.listSitemaps(site).Failure? {
      ListFailureIsText(fmt, api, site);
    }
    if api.submitSitemap(input.siteUrl, input.sitemapUrl).Fail? {
      SubmitFailureIsText(api, input);
    }
    if api.deleteSitemap(input.siteUrl, input.sitemapUrl).Fail? {
      DeleteFailureIsText(api, input);
    }
  }

  lemma ListFailureIsText(fmt: Renderers, api: SearchConsole, site: string)
    requires api.listSitemaps(site).Failure?
    ensures ListSitemapsText(fmt, api, ListSitemapsInput(site)) == FormatToolError(api.listSitemaps(site).error)
  {
  }

  lemma SubmitFailureIsText(api: SearchConsole, input: SitemapUrlInput)
    requires api.submitSitemap(input.siteUrl, input.sitemapUrl).Fail?
    ensures SubmitSitemapText(api, input) == FormatToolError(api.submitSitemap(input.siteUrl, input.sitemapUrl).error)
  {
  }

  lemma DeleteFailureIsText(api: SearchConsole, input: SitemapUrlInput)
    requires api.deleteSitemap(input.siteUrl, input.sitemapUrl).Fail?
    ensures DeleteSitemapText(api, input) == FormatToolError(api.deleteSitemap(input.siteUrl, input.sitemapUrl).error)
  {
  }
}
