/** The part of the Search Console API that the tools use. The client is an
    oracle: each call's answer, a response or a thrown error, is whatever the
    `SearchConsole` value says it is. Absent and `null` response fields are both
    `None`. */
module GoogleApi {
  import opened Wrappers
  import opened Errors

  /** One entry of `dimensionFilterGroups[].filters`. */
  datatype ApiFilter = ApiFilter(dimension: string, operator: string, expression: string)

  datatype FilterGroup = FilterGroup(groupType: string, filters: seq<ApiFilter>)

  /** The body of `searchanalytics.query`; `searchType` is the request's `type` field. */
  datatype SearchRequest = SearchRequest(
    startDate: string,
    endDate: string,
    dimensions: seq<string>,
    rowLimit: int,
    startRow: int,
    searchType: string,
    dimensionFilterGroups: Option<seq<FilterGroup>>,
    dataState: string,
    aggregationType: Option<string>)

  datatype ApiDataRow = ApiDataRow(
    keys: Option<seq<string>>,
    clicks: Option<real>,
    impressions: Option<real>,
    ctr: Option<real>,
    position: Option<real>)

  datatype WmxSite = WmxSite(siteUrl: Option<string>, permissionLevel: Option<string>)

  /** Counts arrive as decimal strings (`int64` fields). */
  datatype WmxSitemapContent = WmxSitemapContent(contentType: Option<string>, submitted: Option<string>, indexed: Option<string>)

  datatype WmxSitemap = WmxSitemap(
    path: Option<string>,
    sitemapType: Option<string>,
    lastSubmitted: Option<string>,
    lastDownloaded: Option<string>,
    warnings: Option<string>,
    errors: Option<string>,
    contents: Option<seq<WmxSitemapContent>>)

  datatype IndexStatus = IndexStatus(
    coverageState: Option<string>,
    indexingState: Option<string>,
    lastCrawlTime: Option<string>,
    pageFetchState: Option<string>,
    googleCanonical: Option<string>,
    userCanonical: Option<string>,
    robotsTxtState: Option<string>,
    verdict: Option<string>)

  datatype MobileIssue = MobileIssue(issueType: Option<string>, message: Option<string>)

  datatype MobileUsability = MobileUsability(verdict: Option<string>, issues: Option<seq<MobileIssue>>)

  datatype RichIssue = RichIssue(issueMessage: Option<string>, severity: Option<string>)

  datatype RichItem = RichItem(issues: Option<seq<RichIssue>>)

  datatype DetectedItem = DetectedItem(richResultType: Option<string>, items: Option<seq<RichItem>>)

  datatype RichResults = RichResults(verdict: Option<string>, detectedItems: Option<seq<DetectedItem>>)

  datatype AmpIssue = AmpIssue(issueMessage: Option<string>, severity: Option<string>)

  datatype AmpResult = AmpResult(verdict: Option<string>, ampUrl: Option<string>, issues: Option<seq<AmpIssue>>)

  datatype InspectionResult = InspectionResult(
    indexStatusResult: Option<IndexStatus>,
    mobileUsabilityResult: Option<MobileUsability>,
    richResultsResult: Option<RichResults>,
    ampResult: Option<AmpResult>)

  /** `response.data.inspectionResult` of `urlInspection.index.inspect`. */
  datatype InspectResponse = InspectResponse(inspectionResult: Option<InspectionResult>)

  /** The answers of the client's calls. */
  datatype SearchConsole = SearchConsole(
    listSites: Result<Option<seq<WmxSite>>, Thrown>,                          // sites.list: data.siteEntry
    query: (string, SearchRequest) -> Result<Option<seq<ApiDataRow>>, Thrown>, // searchanalytics.query: data.rows
    inspect: (string, string) -> Result<InspectResponse, Thrown>,             // (inspectionUrl, siteUrl)
    listSitemaps: string -> Result<Option<seq<WmxSitemap>>, Thrown>,          // sitemaps.list: data.sitemap
    submitSitemap: (string, string) -> Outcome<Thrown>,                      // (siteUrl, feedpath)
    deleteSitemap: (string, string) -> Outcome<Thrown>)                      // (siteUrl, feedpath)
}
