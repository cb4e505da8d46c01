/** The `gsc.inspect_url` tool of src/tools/url-inspection.ts: the inspection
    report, made of a fixed heading and up to four sections (indexing, mobile
    usability, rich results, AMP), each present exactly when the API returned
    that part of the result. */
module UrlInspection {
  import opened Wrappers
  import opened Strings
  import opened Errors
  import Inputs
  import opened GoogleApi

  function NoInspectionData(url: string): string {
    "No inspection data available for " + url
  }

  /** A `caption: value` line that is written only when the value is non-empty. */
  function Optional(caption: string, value: Option<string>): (r: seq<string>)
    ensures |r| <= 1
    ensures r != [] <==> Truthy(value)
    ensures r != [] ==> r[0] == caption + value.value
  {
    if Truthy(value) then [caption + value.value] else []
  }

  // ---------------------------------------------------------------- sections

  function IndexLines(s: IndexStatus): seq<string> {
    ["## Indexing Status",
     "Coverage State: " + s.coverageState.GetOr("Unknown"),
     "Indexing State: " + s.indexingState.GetOr("Unknown")]
    + Optional("Last Crawl: ", s.lastCrawlTime)
    + Optional("Page Fetch: ", s.pageFetchState)
    + Optional("Google Canonical: ", s.googleCanonical)
    + Optional("User Canonical: ", s.userCanonical)
    + Optional("Robots.txt: ", s.robotsTxtState)
    + Optional("Verdict: ", s.verdict)
    + [""]
  }

  /** `${issue.issueType}`: a missing type shows as 'undefined'. */
  function MobileIssueLine(issue: MobileIssue): string {
    "  - " + issue.issueType.GetOr("undefined") + ": " + issue.message.GetOr("No details")
  }

  function MobileIssueLines(issues: seq<MobileIssue>): (r: seq<string>)
    ensures |r| == |issues|
  {
    if issues == [] then [] else MobileIssueLines(issues[..|issues| - 1]) + [MobileIssueLine(issues[|issues| - 1])]
  }

  /** The issues of a result, none when the list is missing. */
  predicate HasItems<T>(xs: Option<seq<T>>) {
    xs.Some? && |xs.value| > 0
  }

  function MobileLines(m: MobileUsability): seq<string> {
    ["## Mobile Usability", "Verdict: " + m.verdict.GetOr("Unknown")]
    + (if HasItems(m.issues) then ["Issues:"] + MobileIssueLines(m.issues.value)
       else ["No mobile usability issues found."])
    + [""]
  }

  function RichIssueLine(issue: RichIssue): string {
    "      Issue: " + issue.issueMessage.GetOr("Unknown") + " (" + issue.severity.GetOr("unknown severity") + ")"
  }

  function RichIssueLines(issues: seq<RichIssue>): (r: seq<string>)
    ensures |r| == |issues|
  {
    if issues == [] then [] else RichIssueLines(issues[..|issues| - 1]) + [RichIssueLine(issues[|issues| - 1])]
  }

  /** The issue lines of the sub-items of one detected item, in order. */
  function SubItemLines(items: seq<RichItem>): (r: seq<string>)
  {
    if items == [] then []
    else SubItemLines(items[..|items| - 1]) + RichIssueLines(items[|items| - 1].issues.GetOr([]))
  }

  /** A detected item without a (non-empty) type contributes no line at all. */
  function DetectedItemLines(item: DetectedItem): (r: seq<string>)
  {
    if Truthy(item.richResultType) then ["  - " + item.richResultType.value] + SubItemLines(item.items.GetOr([]))
    else []
  }

  function DetectedLines(items: seq<DetectedItem>): (r: seq<string>)
  {
    if items == [] then [] else DetectedLines(items[..|items| - 1]) + DetectedItemLines(items[|items| - 1])
  }

  function RichLines(r: RichResults): seq<string> {
    ["## Rich Results", "Verdict: " + r.verdict.GetOr("Unknown")] + RichBody(r) + [""]
  }

  /** The detected items, under their caption, when there are any. */
  function RichBody(r: RichResults): seq<string> {
    if HasItems(r.detectedItems) then ["Detected Items:"] + DetectedLines(r.detectedItems.value) else []
  }

  function AmpIssueLine(issue: AmpIssue): string {
    "  - " + issue.issueMessage.GetOr("Unknown issue") + " (" + issue.severity.GetOr("unknown") + ")"
  }

  function AmpIssueLines(issues: seq<AmpIssue>): (r: seq<string>)
    ensures |r| == |issues|
  {
    if issues == [] then [] else AmpIssueLines(issues[..|issues| - 1]) + [AmpIssueLine(issues[|issues| - 1])]
  }

  function AmpLines(a: AmpResult): seq<string> {
    ["## AMP", "Verdict: " + a.verdict.GetOr("Unknown")]
    + Optional("AMP URL: ", a.ampUrl)
    + (if HasItems(a.issues) then ["Issues:"] + AmpIssueLines(a.issues.value) else [])
    + [""]
  }

  /** A section's lines when its part of the result is present, nothing otherwise. */
  function IndexSection(p: Option<IndexStatus>): seq<string> {
    if p.Some? then IndexLines(p.value) else []
  }

  function MobileSection(p: Option<MobileUsability>): seq<string> {
    if p.Some? then MobileLines(p.value) else []
  }

  function RichSection(p: Option<RichResults>): seq<string> {
    if p.Some? then RichLines(p.value) else []
  }

  function AmpSection(p: Option<AmpResult>): seq<string> {
    if p.Some? then AmpLines(p.value) else []
  }

  function ReportHead(url: string): seq<string> {
    ["URL Inspection Report", Repeat('=', 50), "", "URL: " + url, ""]
  }

  /** The report's lines: the heading, then the sections in a fixed order. */
  function InspectionLines(url: string, inspection: InspectionResult): seq<string> {
    ReportHead(url)
    + IndexSection(inspection.indexStatusResult)
    + MobileSection(inspection.mobileUsabilityResult)
    + RichSection(inspection.richResultsResult)
    + AmpSection(inspection.ampResult)
  }

  /** `formatInspectionResult`: the no-data message exactly when there is no
      inspection result, and otherwise a report under its title. */
  function InspectionText(url: string, result: InspectResponse): (r: string)
    ensures result.inspectionResult.None? <==> r == NoInspectionData(url)
    ensures result.inspectionResult.Some? ==> StartsWith(r, "URL Inspection Report\n")
  {
    match result.inspectionResult
    case None => NoInspectionData(url)
    case Some(inspection) =>
      var lines := InspectionLines(url, inspection);
      ReportStartsWithHeading(url, inspection);
      assert lines[0] == lines[..5][0];
      UnlinesStartsWith(lines);
      assert Unlines(lines)[0] == 'U' && NoInspectionData(url)[0] == 'N';
      Unlines(lines)
  }

  // ---------------------------------------------------------------- properties

  predicate IsHeading(line: string) {
    StartsWith(line, "## ")
  }

  /** The section headings among the lines, in order. */
  function Headings(lines: seq<string>): (r: seq<string>)
    ensures forall i :: 0 <= i < |r| ==> IsHeading(r[i])
  {
    if lines == [] then []
    else
      var last := lines[|lines| - 1];
      Headings(lines[..|lines| - 1]) + (if IsHeading(last) then [last] else [])
  }

  lemma {:induction false} HeadingsAppend(a: seq<string>, b: seq<string>)
    ensures Headings(a + b) == Headings(a) + Headings(b)
    decreases |b|
  {
    if b == [] {
      assert a + b == a;
    } else {
      var b' := b[..|b| - 1];
      assert (a + b)[..|a + b| - 1] == a + b';
      HeadingsAppend(a, b');
    }
  }

  /** Lines none of which starts with '#'. */
  predicate Plain(lines: seq<string>) {
    forall i :: 0 <= i < |lines| ==> lines[i] == "" || lines[i][0] != '#'
  }

  lemma PlainAppend(a: seq<string>, b: seq<string>)
    requires Plain(a) && Plain(b)
    ensures Plain(a + b)
  {
    assert forall i :: |a| <= i < |a + b| ==> (a + b)[i] == b[i - |a|];
  }

  lemma PlainLine(line: string)
    requires line == "" || line[0] != '#'
    ensures Plain([line])
  {
  }

  lemma OptionalPlain(caption: string, value: Option<string>)
    requires caption != "" && caption[0] != '#'
    ensures Plain(Optional(caption, value))
  {
  }

  lemma IndentedPlain(lines: seq<string>)
    requires Indented(lines)
    ensures Plain(lines)
  {
  }

  /** Plain lines hold no heading. */
  lemma {:induction false} NoHeadings(lines: seq<string>)
    requires Plain(lines)
    ensures Headings(lines) == []
  {
    if lines != [] {
      NoHeadings(lines[..|lines| - 1]);
    }
  }

  lemma HeadingThenBody(heading: string, body: seq<string>)
    requires IsHeading(heading)
    requires Plain(body)
    ensures Headings([heading] + body) == [heading]
  {
    HeadingsAppend([heading], body);
    NoHeadings(body);
    assert Headings([heading]) == Headings([]) + [heading];
  }

  /** An optional line is never a heading. */
  lemma OptionalNoHeadings(caption: string, value: Option<string>)
    requires caption != "" && caption[0] != '#'
    ensures Headings(Optional(caption, value)) == []
  {
    OptionalPlain(caption, value);
    NoHeadings(Optional(caption, value));
  }

  lemma IndexHeadings(s: IndexStatus)
    ensures Headings(IndexLines(s)) == ["## Indexing Status"]
  {
    var coverage := "Coverage State: " + s.coverageState.GetOr("Unknown");
    var indexing := "Indexing State: " + s.indexingState.GetOr("Unknown");
    var o1 := Optional("Last Crawl: ", s.lastCrawlTime);
    var o2 := Optional("Page Fetch: ", s.pageFetchState);
    var o3 := Optional("Google Canonical: ", s.googleCanonical);
    var o4 := Optional("User Canonical: ", s.userCanonical);
    var o5 := Optional("Robots.txt: ", s.robotsTxtState);
    var o6 := Optional("Verdict: ", s.verdict);
    var p0 := ["## Indexing Status", coverage, indexing];
    PlainLine(coverage);
    PlainLine(indexing);
    PlainAppend([coverage], [indexing]);
    assert p0 == ["## Indexing Status"] + ([coverage] + [indexing]);
    HeadingThenBody("## Indexing Status", [coverage] + [indexing]);
    var p1 := p0 + o1;
    AppendOptional(p0, "Last Crawl: ", s.lastCrawlTime);
    var p2 := p1 + o2;
    AppendOptional(p1, "Page Fetch: ", s.pageFetchState);
    var p3 := p2 + o3;
    AppendOptional(p2, "Google Canonical: ", s.googleCanonical);
    var p4 := p3 + o4;
    AppendOptional(p3, "User Canonical: ", s.userCanonical);
    var p5 := p4 + o5;
    AppendOptional(p4, "Robots.txt: ", s.robotsTxtState);
    var p6 := p5 + o6;
    AppendOptional(p5, "Verdict: ", s.verdict);
    PlainLine("");
    NoHeadings([""]);
    HeadingsAppend(p6, [""]);
  }

  /** An optional line after some lines adds no heading. */
  lemma AppendOptional(lines: seq<string>, caption: string, value: Option<string>)
    requires caption != "" && caption[0] != '#'
    ensures Headings(lines + Optional(caption, value)) == Headings(lines)
  {
    OptionalNoHeadings(caption, value);
    HeadingsAppend(lines, Optional(caption, value));
  }

  lemma MobileHeadings(m: MobileUsability)
    ensures Headings(MobileLines(m)) == ["## Mobile Usability"]
  {
    var verdict := "Verdict: " + m.verdict.GetOr("Unknown");
    var middle := if HasItems(m.issues) then ["Issues:"] + MobileIssueLines(m.issues.value)
                  else ["No mobile usability issues found."];
    PlainLine(verdict);
    PlainLine("");
    if HasItems(m.issues) {
      MobileIssueLinesIndented(m.issues.value);
      IndentedPlain(MobileIssueLines(m.issues.value));
      PlainLine("Issues:");
      PlainAppend(["Issues:"], MobileIssueLines(m.issues.value));
    } else {
      PlainLine("No mobile usability issues found.");
    }
    PlainAppend([verdict], middle);
    PlainAppend([verdict] + middle, [""]);
    assert MobileLines(m) == ["## Mobile Usability"] + ([verdict] + middle + [""]);
    HeadingThenBody("## Mobile Usability", [verdict] + middle + [""]);
  }

  lemma RichHeadings(r: RichResults)
    ensures Headings(RichLines(r)) == ["## Rich Results"]
  {
    var verdict := "Verdict: " + r.verdict.GetOr("Unknown");
    var middle := RichBody(r);
    PlainLine(verdict);
    PlainLine("");
    if HasItems(r.detectedItems) {
      DetectedLinesIndented(r.detectedItems.value);
      IndentedPlain(DetectedLines(r.detectedItems.value));
      PlainLine("Detected Items:");
      PlainAppend(["Detected Items:"], DetectedLines(r.detectedItems.value));
    }
    PlainAppend([verdict], middle);
    PlainAppend([verdict] + middle, [""]);
    assert RichLines(r) == ["## Rich Results"] + ([verdict] + middle + [""]);
    HeadingThenBody("## Rich Results", [verdict] + middle + [""]);
  }

  lemma AmpHeadings(a: AmpResult)
    ensures Headings(AmpLines(a)) == ["## AMP"]
  {
    var verdict := "Verdict: " + a.verdict.GetOr("Unknown");
    var url := Optional("AMP URL: ", a.ampUrl);
    var middle := if HasItems(a.issues) then ["Issues:"] + AmpIssueLines(a.issues.value) else [];
    PlainLine(verdict);
    PlainLine("");
    OptionalPlain("AMP URL: ", a.ampUrl);
    if HasItems(a.issues) {
      AmpIssueLinesIndented(a.issues.value);
      IndentedPlain(AmpIssueLines(a.issues.value));
      PlainLine("Issues:");
      PlainAppend(["Issues:"], AmpIssueLines(a.issues.value));
    }
    PlainAppend([verdict], url);
    PlainAppend([verdict] + url, middle);
    PlainAppend([verdict] + url + middle, [""]);
    assert AmpLines(a) == ["## AMP"] + ([verdict] + url + middle + [""]);
    HeadingThenBody("## AMP", [verdict] + url + middle + [""]);
  }

  /** Lines that start with a space: the issue and item lines of a section. */
  predicate Indented(lines: seq<string>) {
    forall i :: 0 <= i < |lines| ==> lines[i] != "" && lines[i][0] == ' '
  }

  lemma IndentedAppend(a: seq<string>, b: seq<string>)
    requires Indented(a) && Indented(b)
    ensures Indented(a + b)
  {
    assert forall i :: |a| <= i < |a + b| ==> (a + b)[i] == b[i - |a|];
  }

  lemma {:induction false} MobileIssueLinesIndented(issues: seq<MobileIssue>)
    ensures Indented(MobileIssueLines(issues))
  {
    if issues != [] {
      MobileIssueLinesIndented(issues[..|issues| - 1]);
      IndentedAppend(MobileIssueLines(issues[..|issues| - 1]), [MobileIssueLine(issues[|issues| - 1])]);
    }
  }

  lemma {:induction false} RichIssueLinesIndented(issues: seq<RichIssue>)
    ensures Indented(RichIssueLines(issues))
  {
    if issues != [] {
      RichIssueLinesIndented(issues[..|issues| - 1]);
      IndentedAppend(RichIssueLines(issues[..|issues| - 1]), [RichIssueLine(issues[|issues| - 1])]);
    }
  }

  lemma {:induction false} AmpIssueLinesIndented(issues: seq<AmpIssue>)
    ensures Indented(AmpIssueLines(issues))
  {
    if issues != [] {
      AmpIssueLinesIndented(issues[..|issues| - 1]);
      IndentedAppend(AmpIssueLines(issues[..|issues| - 1]), [AmpIssueLine(issues[|issues| - 1])]);
    }
  }

  lemma {:induction false} SubItemLinesIndented(items: seq<RichItem>)
    ensures Indented(SubItemLines(items))
  {
    if items != [] {
      SubItemLinesIndented(items[..|items| - 1]);
      RichIssueLinesIndented(items[|items| - 1].issues.GetOr([]));
      IndentedAppend(SubItemLines(items[..|items| - 1]), RichIssueLines(items[|items| - 1].issues.GetOr([])));
    }
  }

  lemma {:induction false} DetectedLinesIndented(items: seq<DetectedItem>)
    ensures Indented(DetectedLines(items))
  {
    if items != [] {
      var item := items[|items| - 1];
      DetectedLinesIndented(items[..|items| - 1]);
      if Truthy(item.richResultType) {
        SubItemLinesIndented(item.items.GetOr([]));
        IndentedAppend(["  - " + item.richResultType.value], SubItemLines(item.items.GetOr([])));
      }
      IndentedAppend(DetectedLines(items[..|items| - 1]), DetectedItemLines(item));
    }
  }

  /** A section's heading, when the section is present. */
  function HeadingIf(present: bool, heading: string): seq<string> {
    if present then [heading] else []
  }

  /** The sections present in a result, by heading, in report order. */
  function PresentSections(inspection: InspectionResult): seq<string> {
    HeadingIf(inspection.indexStatusResult.Some?, "## Indexing Status")
    + HeadingIf(inspection.mobileUsabilityResult.Some?, "## Mobile Usability")
    + HeadingIf(inspection.richResultsResult.Some?, "## Rich Results")
    + HeadingIf(inspection.ampResult.Some?, "## AMP")
  }

  lemma SectionHeadings(inspection: InspectionResult)
    ensures Headings(IndexSection(inspection.indexStatusResult)) == HeadingIf(inspection.indexStatusResult.Some?, "## Indexing Status")
    ensures Headings(MobileSection(inspection.mobileUsabilityResult)) == HeadingIf(inspection.mobileUsabilityResult.Some?, "## Mobile Usability")
    ensures Headings(RichSection(inspection.richResultsResult)) == HeadingIf(inspection.richResultsResult.Some?, "## Rich Results")
    ensures Headings(AmpSection(inspection.ampResult)) == HeadingIf(inspection.ampResult.Some?, "## AMP")
  {
    if inspection.indexStatusResult.Some? { IndexHeadings(inspection.indexStatusResult.value); }
    if inspection.mobileUsabilityResult.Some? { MobileHeadings(inspection.mobileUsabilityResult.value); }
    if inspection.richResultsResult.Some? { RichHeadings(inspection.richResultsResult.value); }
    if inspection.ampResult.Some? { AmpHeadings(inspection.ampResult.value); }
  }

  lemma HeadHasNoHeadings(url: string)
    ensures Headings(ReportHead(url)) == []
  {
    var h := ReportHead(url);
    assert h[1][0] == '=';
    assert h[3][0] == 'U';
    NoHeadings(h);
  }

  /** Each section appears exactly when its part of the result is present, and
      always in the order indexing, mobile usability, rich results, AMP. */
  lemma SectionsInOrder(url: string, inspection: InspectionResult)
    ensures Headings(InspectionLines(url, inspection)) == PresentSections(inspection)
  {
    var h := ReportHead(url);
    var s1 := IndexSection(inspection.indexStatusResult);
    var s2 := MobileSection(inspection.mobileUsabilityResult);
    var s3 := RichSection(inspection.richResultsResult);
    var s4 := AmpSection(inspection.ampResult);
    assert InspectionLines(url, inspection) == h + s1 + s2 + s3 + s4;
    HeadHasNoHeadings(url);
    SectionHeadings(inspection);
    HeadingsAppend(h, s1);
    HeadingsAppend(h + s1, s2);
    HeadingsAppend(h + s1 + s2, s3);
    HeadingsAppend(h + s1 + s2 + s3, s4);
    assert Headings(h) + Headings(s1) == Headings(s1);
  }

  /** The mobile section says no issues were found exactly when it lists none. */
  lemma MobileNoIssuesIff(m: MobileUsability)
    ensures "No mobile usability issues found." in MobileLines(m) <==> !HasItems(m.issues)
    ensures HasItems(m.issues) ==> MobileLines(m)[2] == "Issues:" && |MobileLines(m)| == 4 + |m.issues.value|
  {
    if HasItems(m.issues) {
      var lines := MobileLines(m);
      var issues := MobileIssueLines(m.issues.value);
      var verdict := "Verdict: " + m.verdict.GetOr("Unknown");
      MobileIssueLinesIndented(m.issues.value);
      assert lines == ["## Mobile Usability", verdict, "Issues:"] + issues + [""];
      assert verdict[0] == 'V';
      assert forall i :: 0 <= i < |lines| ==> lines[i] == "" || lines[i][0] != 'N';
    }
  }

  /** A detected item without a type adds nothing, whatever its nested issues. */
  lemma UntypedItemsAddNothing(items: seq<DetectedItem>, item: DetectedItem)
    requires !Truthy(item.richResultType)
    ensures DetectedLines(items + [item]) == DetectedLines(items)
  {
    assert (items + [item])[..|items|] == items;
  }

  // ---------------------------------------------------------------- writers

  method WriteOptional(text: string, ghost done: seq<string>, caption: string, value: Option<string>)
    returns (r: string)
    requires text == Unlines(done)
    ensures r == Unlines(done + Optional(caption, value))
  {
    r := text;
    if value.Some? && value.value != "" {
      r := AppendLine(text, done, caption + value.value);
    } else {
      assert done + [] == done;
    }
  }

  method WriteIndexSection(s: IndexStatus) returns (text: string)
    ensures text == Unlines(IndexLines(s))
  {
    var coverage := "Coverage State: " + s.coverageState.GetOr("Unknown");
    var indexing := "Indexing State: " + s.indexingState.GetOr("Unknown");
    text := AppendLine("", [], "## Indexing Status");
    text := AppendLine(text, ["## Indexing Status"], coverage);
    assert ["## Indexing Status"] + [coverage] == ["## Indexing Status", coverage];
    text := AppendLine(text, ["## Indexing Status", coverage], indexing);
    ghost var done := ["## Indexing Status", coverage, indexing];
    assert ["## Indexing Status", coverage] + [indexing] == done;
    text := WriteOptional(text, done, "Last Crawl: ", s.lastCrawlTime);
    done := done + Optional("Last Crawl: ", s.lastCrawlTime);
    text := WriteOptional(text, done, "Page Fetch: ", s.pageFetchState);
    done := done + Optional("Page Fetch: ", s.pageFetchState);
    text := WriteOptional(text, done, "Google Canonical: ", s.googleCanonical);
    done := done + Optional("Google Canonical: ", s.googleCanonical);
    text := WriteOptional(text, done, "User Canonical: ", s.userCanonical);
    done := done + Optional("User Canonical: ", s.userCanonical);
    text := WriteOptional(text, done, "Robots.txt: ", s.robotsTxtState);
    done := done + Optional("Robots.txt: ", s.robotsTxtState);
    text := WriteOptional(text, done, "Verdict: ", s.verdict);
    done := done + Optional("Verdict: ", s.verdict);
    text := AppendLine(text, done, "");
  }

  lemma MobileIssuesSnoc(done: seq<string>, issues: seq<MobileIssue>, j: nat)
    requires j < |issues|
    ensures done + MobileIssueLines(issues[..j + 1]) == (done + MobileIssueLines(issues[..j])) + [MobileIssueLine(issues[j])]
  {
    assert issues[..j + 1][..j] == issues[..j];
  }

  /** The mobile issues, one line each, in order. */
  method WriteMobileIssues(text: string, ghost done: seq<string>, issues: seq<MobileIssue>) returns (r: string)
    requires text == Unlines(done)
    ensures r == Unlines(done + MobileIssueLines(issues))
  {
    r := text;
    assert done + MobileIssueLines(issues[..0]) == done;
    for j := 0 to |issues|
      invariant r == Unlines(done + MobileIssueLines(issues[..j]))
    {
      MobileIssuesSnoc(done, issues, j);
      r := AppendLine(r, done + MobileIssueLines(issues[..j]), MobileIssueLine(issues[j]));
    }
    assert issues[..|issues|] == issues;
  }

  method WriteMobileSection(m: MobileUsability) returns (text: string)
    ensures text == Unlines(MobileLines(m))
  {
    var verdict := "Verdict: " + m.verdict.GetOr("Unknown");
    text := AppendLine("", [], "## Mobile Usability");
    text := AppendLine(text, ["## Mobile Usability"], verdict);
    ghost var top := ["## Mobile Usability", verdict];
    assert ["## Mobile Usability"] + [verdict] == top;
    ghost var body: seq<string>;
    if m.issues.Some? && |m.issues.value| > 0 {
      text := AppendLine(text, top, "Issues:");
      text := WriteMobileIssues(text, top + ["Issues:"], m.issues.value);
      body := ["Issues:"] + MobileIssueLines(m.issues.value);
      assert top + ["Issues:"] + MobileIssueLines(m.issues.value) == top + body;
    } else {
      text := AppendLine(text, top, "No mobile usability issues found.");
      body := ["No mobile usability issues found."];
    }
    text := AppendLine(text, top + body, "");
    assert MobileLines(m) == top + body + [""];
  }

  /** The issue lines of one sub-item, appended in order. */
  method WriteRichIssues(text: string, ghost done: seq<string>, issues: seq<RichIssue>) returns (r: string)
    requires text == Unlines(done)
    ensures r == Unlines(done + RichIssueLines(issues))
  {
    r := text;
    assert done + RichIssueLines(issues[..0]) == done;
    for k := 0 to |issues|
      invariant r == Unlines(done + RichIssueLines(issues[..k]))
    {
      assert issues[..k + 1][..k] == issues[..k];
      assert done + RichIssueLines(issues[..k + 1]) == done + RichIssueLines(issues[..k]) + [RichIssueLine(issues[k])];
      r := AppendLine(r, done + RichIssueLines(issues[..k]), RichIssueLine(issues[k]));
    }
    assert issues[..|issues|] == issues;
  }

  lemma SubItemsSnoc(done: seq<string>, items: seq<RichItem>, j: nat)
    requires j < |items|
    ensures done + SubItemLines(items[..j + 1]) == (done + SubItemLines(items[..j])) + RichIssueLines(items[j].issues.GetOr([]))
  {
    assert items[..j + 1][..j] == items[..j];
  }

  /** The sub-items of a detected item: the issue lines of each, in order. */
  method WriteSubItems(text: string, ghost done: seq<string>, items: seq<RichItem>) returns (r: string)
    requires text == Unlines(done)
    ensures r == Unlines(done + SubItemLines(items))
  {
    r := text;
    assert done + SubItemLines(items[..0]) == done;
    for j := 0 to |items|
      invariant r == Unlines(done + SubItemLines(items[..j]))
    {
      SubItemsSnoc(done, items, j);
      r := WriteRichIssues(r, done + SubItemLines(items[..j]), items[j].issues.GetOr([]));
    }
    assert items[..|items|] == items;
  }

  /** One detected item: its type line and the issues of its sub-items. */
  method WriteDetectedItem(text: string, ghost done: seq<string>, item: DetectedItem) returns (r: string)
    requires text == Unlines(done)
    ensures r == Unlines(done + DetectedItemLines(item))
  {
    if item.richResultType.Some? && item.richResultType.value != "" {
      var head := "  - " + item.richResultType.value;
      r := AppendLine(text, done, head);
      r := WriteSubItems(r, done + [head], item.items.GetOr([]));
      assert done + [head] + SubItemLines(item.items.GetOr([])) == done + DetectedItemLines(item);
    } else {
      r := text;
      assert done + DetectedItemLines(item) == done;
    }
  }

  lemma DetectedStep(done: seq<string>, items: seq<DetectedItem>, i: nat)
    requires i < |items|
    ensures done + DetectedLines(items[..i]) + DetectedItemLines(items[i]) == done + DetectedLines(items[..i + 1])
  {
    assert items[..i + 1][..i] == items[..i];
  }

  /** The detected items in order; untyped ones write nothing. */
  method WriteDetectedItems(text: string, ghost done: seq<string>, items: seq<DetectedItem>) returns (r: string)
    requires text == Unlines(done)
    ensures r == Unlines(done + DetectedLines(items))
  {
    r := text;
    assert done + DetectedLines(items[..0]) == done;
    for i := 0 to |items|
      invariant r == Unlines(done + DetectedLines(items[..i]))
    {
      r := WriteDetectedItem(r, done + DetectedLines(items[..i]), items[i]);
      DetectedStep(done, items, i);
    }
    assert items[..|items|] == items;
  }

  method WriteRichSection(rr: RichResults) returns (text: string)
    ensures text == Unlines(RichLines(rr))
  {
    var verdict := "Verdict: " + rr.verdict.GetOr("Unknown");
    text := AppendLine("", [], "## Rich Results");
    text := AppendLine(text, ["## Rich Results"], verdict);
    ghost var top := ["## Rich Results", verdict];
    assert ["## Rich Results"] + [verdict] == top;
    text := WriteRichBody(text, top, rr);
    text := AppendLine(text, top + RichBody(rr), "");
  }

  /** The detected items and their issues, when there are any. */
  method WriteRichBody(text: string, ghost done: seq<string>, rr: RichResults) returns (r: string)
    requires text == Unlines(done)
    ensures r == Unlines(done + RichBody(rr))
  {
    r := text;
    if rr.detectedItems.Some? && |rr.detectedItems.value| > 0 {
      var items := rr.detectedItems.value;
      r := AppendLine(r, done, "Detected Items:");
      r := WriteDetectedItems(r, done + ["Detected Items:"], items);
      assert done + ["Detected Items:"] + DetectedLines(items) == done + RichBody(rr);
    } else {
      assert done + RichBody(rr) == done;
    }
  }

  lemma AmpIssuesSnoc(done: seq<string>, issues: seq<AmpIssue>, j: nat)
    requires j < |issues|
    ensures done + AmpIssueLines(issues[..j + 1]) == (done + AmpIssueLines(issues[..j])) + [AmpIssueLine(issues[j])]
  {
    assert issues[..j + 1][..j] == issues[..j];
  }

  /** The AMP issues, one line each, in order. */
  method WriteAmpIssues(text: string, ghost done: seq<string>, issues: seq<AmpIssue>) returns (r: string)
    requires text == Unlines(done)
    ensures r == Unlines(done + AmpIssueLines(issues))
  {
    r := text;
    assert done + AmpIssueLines(issues[..0]) == done;
    for j := 0 to |issues|
      invariant r == Unlines(done + AmpIssueLines(issues[..j]))
    {
      AmpIssuesSnoc(done, issues, j);
      r := AppendLine(r, done + AmpIssueLines(issues[..j]), AmpIssueLine(issues[j]));
    }
    assert issues[..|issues|] == issues;
  }

  method WriteAmpSection(a: AmpResult) returns (text: string)
    ensures text == Unlines(AmpLines(a))
  {
    var verdict := "Verdict: " + a.verdict.GetOr("Unknown");
    text := AppendLine("", [], "## AMP");
    text := AppendLine(text, ["## AMP"], verdict);
    assert ["## AMP"] + [verdict] == ["## AMP", verdict];
    text := WriteOptional(text, ["## AMP", verdict], "AMP URL: ", a.ampUrl);
    ghost var top := ["## AMP", verdict] + Optional("AMP URL: ", a.ampUrl);
    ghost var body: seq<string> := [];
    if a.issues.Some? && |a.issues.value| > 0 {
      text := AppendLine(text, top, "Issues:");
      text := WriteAmpIssues(text, top + ["Issues:"], a.issues.value);
      body := ["Issues:"] + AmpIssueLines(a.issues.value);
      assert top + ["Issues:"] + AmpIssueLines(a.issues.value) == top + body;
    } else {
      assert top + body == top;
    }
    text := AppendLine(text, top + body, "");
    assert AmpLines(a) == top + body + [""];
  }

  /** `formatInspectionResult`: the no-data guard, the heading, then each present
      section in turn. */
  method FormatInspectionResult(url: string, result: InspectResponse) returns (output: string)
    ensures output == InspectionText(url, result)
  {
    if result.inspectionResult.None? {
      return NoInspectionData(url);
    }
    var inspection := result.inspectionResult.value;
    ghost var done: seq<string> := [];
    output := AppendLine("", done, "URL Inspection Report");
    done := done + ["URL Inspection Report"];
    output := AppendLine(output, done, Repeat('=', 50));
    done := done + [Repeat('=', 50)];
    output := AppendLine(output, done, "");
    done := done + [""];
    output := AppendLine(output, done, "URL: " + url);
    done := done + ["URL: " + url];
    output := AppendLine(output, done, "");
    done := done + [""];
    assert done == ReportHead(url);
    var section := "";
    if inspection.indexStatusResult.Some? {
      section := WriteIndexSection(inspection.indexStatusResult.value);
    }
    UnlinesAppend(done, IndexSection(inspection.indexStatusResult));
    output, done := output + section, done + IndexSection(inspection.indexStatusResult);
    section := "";
    if inspection.mobileUsabilityResult.Some? {
      section := WriteMobileSection(inspection.mobileUsabilityResult.value);
    }
    UnlinesAppend(done, MobileSection(inspection.mobileUsabilityResult));
    output, done := output + section, done + MobileSection(inspection.mobileUsabilityResult);
    section := "";
    if inspection.richResultsResult.Some? {
      section := WriteRichSection(inspection.richResultsResult.value);
    }
    UnlinesAppend(done, RichSection(inspection.richResultsResult));
    output, done := output + section, done + RichSection(inspection.richResultsResult);
    section := "";
    if inspection.ampResult.Some? {
      section := WriteAmpSection(inspection.ampResult.value);
    }
    UnlinesAppend(done, AmpSection(inspection.ampResult));
    output, done := output + section, done + AmpSection(inspection.ampResult);
  }

  // ---------------------------------------------------------------- tool

  /** `inspectUrl`: the inspected URL and the site go to the client; a response
      without an inspection result gets the no-data message. */
  function InspectUrlText(api: SearchConsole, input: Inputs.InspectUrlInput): string {
    match api.inspect(input.inspectionUrl, input.siteUrl)
    case Failure(e) => FormatToolError(e)
    case Success(response) =>
      if response.inspectionResult.None? then NoInspectionData(input.inspectionUrl)
      else InspectionText(input.inspectionUrl, response)
  }

  method InspectUrl(api: SearchConsole, input: Inputs.InspectUrlInput) returns (output: string)
    ensures output == InspectUrlText(api, input)
  {
    var response := api.inspect(input.inspectionUrl, input.siteUrl);
    if response.Failure? {
      return FormatToolError(response.error);
    }
    if response.value.inspectionResult.None? {
      return NoInspectionData(input.inspectionUrl);
    }
    output := FormatInspectionResult(input.inspectionUrl, response.value);
  }

  /** The report starts with its title, a rule of 50 '=' and the URL line. */
  lemma ReportStartsWithHeading(url: string, inspection: InspectionResult)
    ensures InspectionLines(url, inspection)[..5] == ["URL Inspection Report", Repeat('=', 50), "", "URL: " + url, ""]
  {
  }

  /** The outcome of the tool: the error text when the client throws, the no-data
      message when there is no result, the report otherwise. */
  lemma InspectUrlOutcomes(api: SearchConsole, input: Inputs.InspectUrlInput)
    ensures api.inspect(input.inspectionUrl, input.siteUrl).Failure? ==>
      InspectUrlText(api, input) == FormatToolError(api.inspect(input.inspectionUrl, input.siteUrl).error)
    ensures (api.inspect(input.inspectionUrl, input.siteUrl).Success?
             && api.inspect(input.inspectionUrl, input.siteUrl).value.inspectionResult.None?) ==>
      InspectUrlText(api, input) == NoInspectionData(input.inspectionUrl)
  {
  }
}
