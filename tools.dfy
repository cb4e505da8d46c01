/** The tool registry of src/tools/index.ts: a static table of six tools and
    the dispatcher that validates a call's arguments with the tool's schema
    before running its handler. */
module Tools {
  import opened Wrappers
  import opened Strings
  import opened Errors
  import Dates
  import opened Format
  import opened Inputs
  import opened GoogleApi
  import SearchAnalytics
  import UrlInspection
  import Sitemaps

  /** The input schemas of src/schemas/inputs.ts; a definition publishes one of
      them as JSON Schema. */
  datatype Schema =
    | ListSitesInputSchema
    | SearchAnalyticsInputSchema
    | InspectUrlInputSchema
    | ListSitemapsInputSchema
    | SubmitSitemapInputSchema
    | DeleteSitemapInputSchema

  datatype ToolDefinition = ToolDefinition(name: string, description: string, inputSchema: Schema)

  const ListSitesDescription := "List all Google Search Console properties you have access to"
  const SearchAnalyticsDescription :=
    "Query Google Search Console search analytics data including clicks, impressions, CTR, and position"
  const InspectUrlDescription :=
    "Inspect a URL to check its indexing status, crawl info, and mobile usability in Google Search"
  const ListSitemapsDescription := "List all sitemaps submitted to Google Search Console for a site"
  const SubmitSitemapDescription := "Submit a new sitemap to Google Search Console"
  const DeleteSitemapDescription := "Delete a sitemap from Google Search Console"

  const ToolDefinitions: seq<ToolDefinition> := [
    ToolDefinition("gsc.list_sites", ListSitesDescription, ListSitesInputSchema),
    ToolDefinition("gsc.search_analytics", SearchAnalyticsDescription, SearchAnalyticsInputSchema),
    ToolDefinition("gsc.inspect_url", InspectUrlDescription, InspectUrlInputSchema),
    ToolDefinition("gsc.list_sitemaps", ListSitemapsDescription, ListSitemapsInputSchema),
    ToolDefinition("gsc.submit_sitemap", SubmitSitemapDescription, SubmitSitemapInputSchema),
    ToolDefinition("gsc.delete_sitemap", DeleteSitemapDescription, DeleteSitemapInputSchema)
  ]

  predicate InTable(name: string) {
    exists i :: 0 <= i < |ToolDefinitions| && ToolDefinitions[i].name == name
  }

  /** What the host supplies that the handlers need: number and date rendering,
      today's date, and the URL check of `z.string().url()`. */
  datatype Context = Context(fmt: Renderers, cal: Dates.Calendar, isUrl: string -> bool)

  // ---------------------------------------------------------------- list_sites

  /** `sites.map(site => ({ siteUrl, permissionLevel }))`. */
  function SiteEntries(sites: seq<WmxSite>): (r: seq<SiteEntry>)
    ensures |r| == |sites|
    ensures forall i :: 0 <= i < |r| ==>
      r[i].siteUrl == sites[i].siteUrl && r[i].permissionLevel == sites[i].permissionLevel
  {
    seq(|sites|, i requires 0 <= i < |sites| => SiteEntry(sites[i].siteUrl, sites[i].permissionLevel))
  }

  /** `listSites` of src/tools/list-sites.ts: a missing site list is an empty one. */
  function ListSitesText(api: SearchConsole): string {
    match api.listSites
    case Failure(e) => FormatToolError(e)
    case Success(sites) => SitesListText(SiteEntries(sites.GetOr([])))
  }

  method ListSites(api: SearchConsole) returns (output: string)
    ensures output == ListSitesText(api)
  {
    var response := api.listSites;
    if response.Failure? {
      return FormatToolError(response.error);
    }
    output := FormatSitesList(SiteEntries(response.value.GetOr([])));
  }

  // ---------------------------------------------------------------- dispatch

  /** The cases of the `switch` in `executeTool`. */
  datatype ToolCase = ListSitesCase | SearchAnalyticsCase | InspectUrlCase | ListSitemapsCase | SubmitSitemapCase | DeleteSitemapCase

  /** The position in the table of the tool a case serves. */
  function CaseIndex(c: ToolCase): (i: nat)
    ensures i < |ToolDefinitions|
  {
    match c
    case ListSitesCase => 0
    case SearchAnalyticsCase => 1
    case InspectUrlCase => 2
    case ListSitemapsCase => 3
    case SubmitSitemapCase => 4
    case DeleteSitemapCase => 5
  }

  /** The exact-match `switch`: which case a tool name selects, if any. A selected
      case is the one the table publishes under that very name. */
  function Dispatch(name: string): (r: Option<ToolCase>)
    ensures r.Some? ==> ToolDefinitions[CaseIndex(r.value)].name == name
    ensures r.Some? ==> CaseOf(ToolDefinitions[CaseIndex(r.value)].inputSchema) == r.value
  {
    if name == "gsc.list_sites" then Some(ListSitesCase)
    else if name == "gsc.search_analytics" then Some(SearchAnalyticsCase)
    else if name == "gsc.inspect_url" then Some(InspectUrlCase)
    else if name == "gsc.list_sitemaps" then Some(ListSitemapsCase)
    else if name == "gsc.submit_sitemap" then Some(SubmitSitemapCase)
    else if name == "gsc.delete_sitemap" then Some(DeleteSitemapCase)
    else None
  }

  /** The problems the case's schema finds in the arguments; `list_sites` parses nothing. */
  function ArgumentIssues(c: ToolCase, ctx: Context, args: Args): Option<seq<Issue>> {
    match c
    case ListSitesCase => None
    case SearchAnalyticsCase => IssuesOf(ParseSearchAnalyticsInput(args))
    case InspectUrlCase => IssuesOf(ParseInspectUrlInput(args, ctx.isUrl))
    case ListSitemapsCase => IssuesOf(ParseListSitemapsInput(args))
    case SubmitSitemapCase => IssuesOf(ParseSitemapUrlInput(args, ctx.isUrl))
    case DeleteSitemapCase => IssuesOf(ParseSitemapUrlInput(args, ctx.isUrl))
  }

  function IssuesOf<T>(p: Parsed<T>): Option<seq<Issue>> {
    if p.Failure? then Some(p.error) else None
  }

  /** The `ZodError` that `Schema.parse` throws. */
  function ValidationError(issues: seq<Issue>): Thrown {
    PlainError(IssuesMessage(issues))
  }

  function UnknownTool(name: string): string {
    "Unknown tool: " + name
  }

  /** `Schema.parse` followed by the handler: a rejected argument object throws
      before the handler runs. */
  function ParseThenRun<T>(p: Parsed<T>, handler: T -> string): (r: Result<string, Thrown>)
    ensures r.Failure? <==> p.Failure?
    ensures r.Failure? ==> r.error == ValidationError(p.error)
    ensures r.Success? ==> r.value == handler(p.value)
  {
    match p
    case Failure(issues) => Failure(ValidationError(issues))
    case Success(input) => Success(handler(input))
  }

  /** `executeTool`: `Failure` is the error the call throws. Handlers catch their
      own client errors, so the only thrown errors are validation failures. */
  function ExecuteTool(ctx: Context, api: SearchConsole, name: string, args: Args): (r: Result<string, Thrown>)
    ensures Dispatch(name).None? ==> r == Success(UnknownTool(name))
    ensures r.Failure? <==> Dispatch(name).Some? && ArgumentIssues(Dispatch(name).value, ctx, args).Some?
    ensures r.Failure? ==> r.error == ValidationError(ArgumentIssues(Dispatch(name).value, ctx, args).value)
  {
    match Dispatch(name)
    case None => Success(UnknownTool(name))
    case Some(ListSitesCase) => Success(ListSitesText(api))
    case Some(SearchAnalyticsCase) =>
      ParseThenRun(ParseSearchAnalyticsInput(args), input => SearchAnalytics.SearchAnalyticsText(ctx.fmt, ctx.cal, api, input))
    case Some(InspectUrlCase) =>
      ParseThenRun(ParseInspectUrlInput(args, ctx.isUrl), input => UrlInspection.InspectUrlText(api, input))
    case Some(ListSitemapsCase) =>
      ParseThenRun(ParseListSitemapsInput(args), input => Sitemaps.ListSitemapsText(ctx.fmt, api, input))
    case Some(SubmitSitemapCase) =>
      ParseThenRun(ParseSitemapUrlInput(args, ctx.isUrl), input => Sitemaps.SubmitSitemapText(api, input))
    case Some(DeleteSitemapCase) =>
      ParseThenRun(ParseSitemapUrlInput(args, ctx.isUrl), input => Sitemaps.DeleteSitemapText(api, input))
  }

  // ---------------------------------------------------------------- properties

  /** The table holds six tools with pairwise distinct names. */
  lemma TableNamesDistinct()
    ensures |ToolDefinitions| == 6
    ensures forall i, j :: 0 <= i < j < |ToolDefinitions| ==> ToolDefinitions[i].name != ToolDefinitions[j].name
  {
  }

  /** A name is dispatched exactly when it is in the table, and then to the case
      whose schema the table publishes for it. */
  lemma DispatchMatchesTable(name: string)
    ensures Dispatch(name).Some? <==> InTable(name)
    ensures forall i :: 0 <= i < |ToolDefinitions| && ToolDefinitions[i].name == name ==>
      Dispatch(name) == Some(CaseOf(ToolDefinitions[i].inputSchema))
  {
    if Dispatch(name).Some? {
      var i := CaseIndex(Dispatch(name).value);
      assert ToolDefinitions[i].name == name;
    }
  }

  /** The case of the switch that serves a published schema. */
  function CaseOf(s: Schema): ToolCase {
    match s
    case ListSitesInputSchema => ListSitesCase
    case SearchAnalyticsInputSchema => SearchAnalyticsCase
    case InspectUrlInputSchema => InspectUrlCase
    case ListSitemapsInputSchema => ListSitemapsCase
    case SubmitSitemapInputSchema => SubmitSitemapCase
    case DeleteSitemapInputSchema => DeleteSitemapCase
  }

  /** An unknown name answers with text, the same whatever the client or the arguments. */
  lemma UnknownNameReachesNoHandler(ctx: Context, api1: SearchConsole, api2: SearchConsole, name: string, args1: Args, args2: Args)
    requires !InTable(name)
    ensures ExecuteTool(ctx, api1, name, args1) == ExecuteTool(ctx, api2, name, args2) == Success("Unknown tool: " + name)
  {
    DispatchMatchesTable(name);
  }

  /** `gsc.list_sites` ignores its arguments and never fails validation. */
  lemma ListSitesIgnoresArguments(ctx: Context, api: SearchConsole, args1: Args, args2: Args)
    ensures ExecuteTool(ctx, api, "gsc.list_sites", args1) == ExecuteTool(ctx, api, "gsc.list_sites", args2)
    ensures ExecuteTool(ctx, api, "gsc.list_sites", args1) == Success(ListSitesText(api))
  {
  }

  /** Arguments are validated before the handler runs: a rejected call gives the
      same error whatever the client would have answered. */
  lemma RejectedCallReachesNoHandler(ctx: Context, api1: SearchConsole, api2: SearchConsole, name: string, args: Args)
    requires ExecuteTool(ctx, api1, name, args).Failure?
    ensures ExecuteTool(ctx, api2, name, args) == ExecuteTool(ctx, api1, name, args)
  {
  }

  /** Every published tool other than `gsc.list_sites` rejects an empty argument
      object: each of them has a required field. */
  lemma EmptyArgumentsRejected(ctx: Context, api: SearchConsole, i: nat)
    requires 1 <= i < |ToolDefinitions|
    ensures ExecuteTool(ctx, api, ToolDefinitions[i].name, map[]).Failure?
  {
  }
}
