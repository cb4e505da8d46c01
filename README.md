# gsc-mcp-server in Dafny

This project models the core of gsc-mcp-server. That is a Model Context Protocol
server: it exposes six tools over Google Search Console (list sites, search
analytics, URL inspection, list, submit and delete sitemaps) and authenticates
with OAuth or a service account. The model covers:

- the tool registry and its dispatcher (`Tools`), and the ListTools / CallTool
  envelopes of the server (`Server`);
- the input schemas, that is the validation of a tool's JSON arguments including
  defaults and bounds (`Inputs`);
- the error taxonomy (`Errors`), the table formatters (`Format`) and the date
  helpers (`Dates`);
- the text reports each tool produces (`SearchAnalytics`, `UrlInspection`,
  `Sitemaps`). They answer to a Search Console client whose answers are
  parameters (`GoogleApi`);
- the configuration lookups (`Credentials`), the OAuth token life cycle
  (`OAuth`), and the choice between OAuth and a service account at start-up
  (`Server`).

Sources that build text step by step are modelled as methods. Each method
appends one line at a time and is proved equal to a specification function over
a list of lines. `Strings.Unlines` joins those lines, each followed by a newline.
Lemmas about the specification functions state what the text contains.

The environment and the file system are maps (`Host.Env`, `Host.Files`). The one
file write, `writeFileSync` of the token, is the `Host.Disk` class; a set of
read-only paths decides when that write throws. The clock, the token endpoint,
the refresh call, the locale-dependent number rendering and the URL check of the
schemas are parameters.

Where the repository's documentation and its code differ, the model
follows the code:

- The refresh test is `expiry_date < now`, so a token expiring exactly now is not
  refreshed.
- `isAuthConfigured` needs only the credentials and the existence of the token
  file, not a file that parses. A corrupt file therefore selects OAuth and fails
  at start-up.
- Only the statuses 500, 502 and 503 map to `SERVICE_ERROR`. Any other 5xx is
  reported as `HTTP_<status>`.
- The `rowLimit ?? 1000` fallback in search analytics is dead code: the schema
  always supplies 100 first.

## Model

| member | source | states |
|---|---|---|
| Errors.ApiDetails | src/utils/errors.ts:14-16 | the details are the response body's message when it has one (even an empty one, by `??`), otherwise the error's own message |
| Errors.StatusText | src/utils/errors.ts:57-62 | the status in the `HTTP_` code is its decimal text, or `undefined` when no response arrived |
| Errors.FormatGoogleApiError | src/utils/errors.ts:12-77 | each of 400, 401, 403, 404, 429 and 500/502/503 gets its fixed code and message; any other status gets `HTTP_<status>` and `Google API error: <details>`; API errors always carry details; a plain Error keeps its message under `UNKNOWN_ERROR`; a non-Error gets the generic message |
| Errors.FormatToolError | src/utils/errors.ts:82-89 | the text starts with `Error: <message>`; a `Details:` line is added exactly when the details are non-empty and differ from the message |
| Errors.NamedCodesDistinct | src/utils/errors.ts:18-63 | one of the six named codes comes out exactly for the statuses the switch names |
| Errors.NamedCodesDiffer | src/utils/errors.ts:18-63 | two statuses the switch names share a code exactly when they are equal or both among 500, 502 and 503 |
| Errors.ServiceErrorExactly | src/utils/errors.ts:49-56 | `SERVICE_ERROR` comes out iff the error is an API error with status 500, 502 or 503 |
| Errors.UnknownErrorExactly | src/utils/errors.ts:66-76 | `UNKNOWN_ERROR` comes out iff the error is not an API error |
| Errors.OtherStatusCodesInjective | src/utils/errors.ts:57-62 | two statuses that fall to the default case get the same code only if they are equal (absent included) |
| Errors.StatusTextTellsAbsence | src/utils/errors.ts:57-62 | the status text starts with `u` exactly when there was no status |
| Errors.OtherStatusShowsDetails | src/utils/errors.ts:82-89 | for a default-case status with non-empty details, the tool text is the prefixed message followed by a `Details:` line repeating the details |
| Errors.NonApiHasNoDetails | src/utils/errors.ts:66-76 | a non-API error gives only `Error: <message>` with no details line |
| Format.FormatPercent | src/utils/format.ts:11-13 | a percentage always ends in `%` |
| Format.NumberOrZero | src/tools/sitemaps.ts:51-52 | a missing or unparsable numeric string counts as 0, otherwise its parsed value |
| Format.ColumnWidth | src/utils/format.ts:25-32 | a column without a width gets 20 |
| Format.Cell | src/utils/format.ts:25-32 | a cell is exactly its column's width (width at least 3); short text is padded, long text is cut to width-3 and ends in `...` |
| Format.Cells | src/utils/format.ts:25-32 | one cell per column, each at its column's width |
| Format.TableRow | src/utils/format.ts:25-32 | a row without columns is empty, and a row of one column is that column's cell alone |
| Format.TableRowSnoc | src/utils/format.ts:25-32 | each further column appends ` | ` and its own cell, so a row is its cells in column order separated by ` | ` |
| Format.Dashes | src/utils/format.ts:37-39 | one run of dashes per column, as long as the column's width |
| Format.TableSeparator | src/utils/format.ts:37-39 | no widths give an empty line, and one width gives that many dashes |
| Format.TableSeparatorSnoc | src/utils/format.ts:37-39 | each further width appends `-+-` and that many dashes |
| Format.SeparatorChars | src/utils/format.ts:37-39 | a separator line consists only of `-` and `+` characters |
| Format.CellsTotalLength | src/utils/format.ts:25-32 | the cells together are as long as the sum of their widths |
| Format.TableRowLength | src/utils/format.ts:25-32 | a row is the sum of the widths plus three characters per separator |
| Format.DashesTotalLength | src/utils/format.ts:37-39 | the dash runs together are as long as the widths' sum |
| Format.TableSeparatorLength | src/utils/format.ts:37-39 | the separator line is exactly as long as a row with the same widths |
| Format.AnalyticsHeaders | src/utils/format.ts:60-62 | the headers are the dimensions followed by Clicks, Impressions, CTR, Position |
| Format.AnalyticsWidths | src/utils/format.ts:60-62 | each dimension column is 40 wide and the metric columns are 10, 12, 8, 10 |
| Format.AnalyticsValues | src/utils/format.ts:67-77 | a row's cells are its keys (or `(unknown)` for each dimension when it has none) followed by the four rendered metrics, missing metrics being 0 |
| Format.AnalyticsRowLines | src/utils/format.ts:67-77 | one line per data row |
| Format.AnalyticsRowLinesAt | src/utils/format.ts:67-77 | the i-th line renders the i-th data row |
| Format.AnalyticsTableLines | src/utils/format.ts:52-80 | the table is a header row, a separator and then one line per data row, in order |
| Format.AnalyticsEmptyIff | src/utils/format.ts:56-58 | the table is the no-data message iff there are no rows |
| Format.AnalyticsHeaderLength | src/utils/format.ts:60-66 | the header row is 40 characters per dimension plus the metrics' widths and separators |
| Format.SumAnalyticsWidths | src/utils/format.ts:60-62 | the widths sum to 40 per dimension plus 40 |
| Format.FormatAnalyticsTable | src/utils/format.ts:52-80 | the method's loop builds exactly the specified table text |
| Format.PropertyNoun | src/utils/format.ts:95 | the noun is singular exactly for one property |
| Format.SiteLines | src/utils/format.ts:103-105 | one line per site |
| Format.SiteLinesAt | src/utils/format.ts:103-105 | the i-th line renders the i-th site |
| Format.SitesListLines | src/utils/format.ts:90-108 | the list is a title naming the count, a blank line, the header row, the separator and one line per site |
| Format.SitesEmptyIff | src/utils/format.ts:91-93 | the list is the no-sites message iff there are no sites |
| Format.SiteLineLength | src/utils/format.ts:103-105 | every site line is 73 characters wide |
| Format.FormatSitesList | src/utils/format.ts:90-108 | the method's loop builds exactly the specified list text |
| Dates.ParseDateRange | src/utils/date.ts:47-68 | the end date is kept whenever given (even empty) and is today otherwise; the start date is an explicit non-empty one, else `days` ago when `days` is non-zero, else 28 days ago |
| Dates.ExplicitStartOverridesDays | src/utils/date.ts:55-62 | a non-empty start date makes `days` irrelevant |
| Dates.EmptyStartIsAbsentEmptyEndIsKept | src/utils/date.ts:52-62 | an empty start date behaves as an absent one, while an empty end date is kept |
| Dates.DefaultDaysAgree | src/utils/date.ts:20-22 | `days` of 28 and of 0 both give the default range |
| Dates.MatchesDatePatternIffSplit | src/utils/date.ts:35 | `^\d{4}-\d{2}-\d{2}$` holds iff the text is ten characters with dashes at 4 and 7 and digits elsewhere |
| Dates.MatchesDatePattern | src/utils/date.ts:35-36 | a text that passes `^\d{4}-\d{2}-\d{2}$` is ten characters long, each an ASCII digit or a dash |
| Dates.Pad2 | src/utils/date.ts:4-6 | a month or day below 100 renders as exactly two ASCII digits, as `toISOString` writes it |
| Dates.IsValidDateString | src/utils/date.ts:34-41 | text off the pattern is invalid; text on it is valid iff the calendar accepts it |
| Dates.ComposedDateMatches | src/utils/date.ts:4-6 | the zero-padded YYYY-MM-DD text `formatDate` writes for any four-digit year, month 1–12 and day 1–31 matches the pattern `isValidDateString` tests |
| Inputs.DimensionFromName | src/schemas/inputs.ts:6 | a name parses iff it is one of the five dimensions, and then to the dimension of that name |
| Inputs.OperatorFromName | src/schemas/inputs.ts:12 | a name parses iff it is one of the four operators, and then to that operator |
| Inputs.SearchTypeFromName | src/schemas/inputs.ts:18 | a name parses iff it is one of the six search types, and then to that type |
| Inputs.EnumNamesRoundTrip | src/schemas/inputs.ts:6-18 | every enum value parses back from its name |
| Inputs.StringValue | src/schemas/inputs.ts:42-43 | a value passes iff it is a string, and is returned unchanged; a failure reports an issue |
| Inputs.DateValue | src/schemas/inputs.ts:54-63 | a value passes iff it is a string matching YYYY-MM-DD |
| Inputs.UrlValue | src/schemas/inputs.ts:101-104 | a value passes iff it is a string the URL check accepts |
| Inputs.IntValue | src/schemas/inputs.ts:47-53 | a value passes iff it is an integral number within the bounds, and is returned as that integer |
| Inputs.DimensionValue | src/schemas/inputs.ts:6 | a value passes iff it is a string naming a dimension |
| Inputs.OperatorValue | src/schemas/inputs.ts:12 | a value passes iff it is a string naming an operator |
| Inputs.SearchTypeValue | src/schemas/inputs.ts:18 | a value passes iff it is a string naming a search type |
| Inputs.DimensionItems | src/schemas/inputs.ts:64-68 | a list passes iff every item names a dimension, and keeps its length and order |
| Inputs.DimensionsValue | src/schemas/inputs.ts:64-68 | a value passes iff it is an array of dimension names, parsed item by item |
| Inputs.RequiredKey | src/schemas/inputs.ts:24-28 | a required key passes iff present, giving its value |
| Inputs.FilterValue | src/schemas/inputs.ts:24-28 | a filter passes iff it is an object with a dimension, an operator and a string expression |
| Inputs.FilterItems | src/schemas/inputs.ts:87-90 | a filter list passes iff every item is a valid filter, in order |
| Inputs.DaysField | src/schemas/inputs.ts:47-53 | `days` is optional; when given it must be an integer in 1..540 |
| Inputs.DateField | src/schemas/inputs.ts:54-63 | an optional date field, when given, must match YYYY-MM-DD, and is kept as given |
| Inputs.DimensionsField | src/schemas/inputs.ts:64-68 | `dimensions` defaults to `["query"]`, otherwise is the parsed list |
| Inputs.BoundedField | src/schemas/inputs.ts:69-83 | a defaulted integer field gets its default when absent, otherwise must be an integer within its bounds |
| Inputs.SearchTypeField | src/schemas/inputs.ts:84-86 | `searchType` defaults to `web`, otherwise must name a search type |
| Inputs.FiltersField | src/schemas/inputs.ts:87-90 | `filters` stays absent when absent, otherwise must be a list of valid filters |
| Inputs.RequiredString | src/schemas/inputs.ts:98-100 | a required string key passes iff present and a string |
| Inputs.RequiredUrl | src/schemas/inputs.ts:101-104 | a required URL key passes iff present, a string and a URL |
| Inputs.ParseSearchAnalyticsInput | src/schemas/inputs.ts:41-91 | the arguments pass iff every field does; each parsed field is that field's result |
| Inputs.ParseInspectUrlInput | src/schemas/inputs.ts:97-105 | passes iff `siteUrl` is a string and `inspectionUrl` a URL, giving both |
| Inputs.ParseListSitemapsInput | src/schemas/inputs.ts:111-115 | passes iff `siteUrl` is a string |
| Inputs.ParseSitemapUrlInput | src/schemas/inputs.ts:121-143 | passes iff `siteUrl` is a string and `sitemapUrl` a URL, giving both |
| Inputs.UnknownKeysIgnored | src/schemas/inputs.ts:41-143 | keys outside a schema do not change its outcome (object schemas strip them) |
| Inputs.SearchAnalyticsDefaults | src/schemas/inputs.ts:41-91 | with only `siteUrl` given, every default applies: query dimension, 100 rows from 0, web, no dates, days or filters |
| Inputs.SearchAnalyticsRefusesOutOfRange | src/schemas/inputs.ts:47-83 | `days` outside 1..540, a non-integral or out-of-range `rowLimit`, and a negative `startRow` are all refused |
| SearchAnalytics.ConvertFilter | src/tools/search-analytics.ts:24-28 | the API filter carries the upper-cased dimension and the operator and expression unchanged |
| SearchAnalytics.ConvertFilters | src/tools/search-analytics.ts:14-31 | no filter group iff the filters are absent or empty; otherwise one `and` group of the converted filters, in order |
| SearchAnalytics.DimensionCaseRoundTrip | src/tools/search-analytics.ts:25 | lower-casing an upper-cased dimension gives back its schema name |
| SearchAnalytics.ConvertFiltersRoundTrip | src/tools/search-analytics.ts:21-30 | every filter can be recovered from the group that carries it |
| SearchAnalytics.HasPageDimension | src/tools/search-analytics.ts:50 | true iff `page` is among the dimensions |
| SearchAnalytics.BuildRequest | src/tools/search-analytics.ts:53-65 | the request carries the range, the upper-cased dimensions and search type, the row window, the converted filters and `dataState: all`, and `aggregationType: byProperty` exactly when `page` is not a dimension |
| SearchAnalytics.DefaultRequest | src/tools/search-analytics.ts:53-65 | with the schema's defaults the request asks for QUERY, 100 rows from 0, WEB, aggregated by property |
| SearchAnalytics.DimensionNamesOf | src/tools/search-analytics.ts:81 | one schema name per dimension, in order |
| SearchAnalytics.FiltersLineIff | src/tools/search-analytics.ts:79-85 | the header has a `Filters:` line, as its fourth line, exactly when filters were given and non-empty |
| SearchAnalytics.TableRowsOf | src/tools/search-analytics.ts:88-97 | one table row per API row, in order |
| SearchAnalytics.LimitReachedIff | src/tools/search-analytics.ts:112 | `(limit reached)` is shown iff the row count equals the row limit |
| SearchAnalytics.SummaryLines | src/tools/search-analytics.ts:100-113 | the summary is empty iff there are no rows, and otherwise seven lines |
| SearchAnalytics.QueryFailureIsText | src/tools/search-analytics.ts:116-119 | a failed query answers with the formatted tool error |
| SearchAnalytics.SummaryIffRows | src/tools/search-analytics.ts:78-115 | the report is the header then the no-data message when there are no rows; otherwise the header, the table and the summary |
| SearchAnalytics.WriteHeader | src/tools/search-analytics.ts:79-85 | the method builds exactly the specified header text |
| SearchAnalytics.WriteSummary | src/tools/search-analytics.ts:100-113 | the method builds exactly the specified summary text |
| SearchAnalytics.RunSearchAnalytics | src/tools/search-analytics.ts:36-120 | the tool's text is the specified report for the given client and input |
| SearchAnalytics.SearchAnalyticsText | src/tools/search-analytics.ts:36-120 | a failed query gives text starting `Error: `, and a successful one a report opening with `Search Analytics for <siteUrl>` |
| SearchAnalytics.ReportStartsWithSite | src/tools/search-analytics.ts:79 | the report's first line names the site |
| Sitemaps.PluralSuffix | src/tools/sitemaps.ts:27-35 | the suffix is empty exactly for one sitemap |
| Sitemaps.DateCell | src/tools/sitemaps.ts:37-55 | a missing or empty date shows `N/A`, otherwise its locale rendering |
| Sitemaps.SitemapCells | src/tools/sitemaps.ts:37-55 | a row shows path and type (`Unknown` when missing), both dates, and warnings and errors as numbers (0 when missing) |
| Sitemaps.ContentLines | src/tools/sitemaps.ts:58-62 | one line per content entry |
| Sitemaps.SitemapBlockShape | src/tools/sitemaps.ts:37-62 | a sitemap shows its row followed by one line per content entry |
| Sitemaps.SitemapBlocksLength | src/tools/sitemaps.ts:37-62 | the body has one line per sitemap plus one per content entry |
| Sitemaps.SitemapsListLines | src/tools/sitemaps.ts:19-66 | the list is a seven-line head (title, rule of 50 `=`, blank, count, blank, header row, separator) followed by the sitemaps' blocks |
| Sitemaps.SitemapsListText | src/tools/sitemaps.ts:19-66 | a non-empty list gives text that starts with the `Sitemaps for <siteUrl>` line |
| Sitemaps.SitemapsListLength | src/tools/sitemaps.ts:19-66 | the list has 7 lines plus one per sitemap and per content entry |
| Sitemaps.SitemapsEmptyIff | src/tools/sitemaps.ts:23-25 | the text is the no-sitemaps message iff there are no sitemaps |
| Sitemaps.WriteSitemapsHead | src/tools/sitemaps.ts:27-35 | the method appends exactly the seven heading lines |
| Sitemaps.WriteTableHead | src/tools/sitemaps.ts:33-34 | the method appends the table's header row and then its separator |
| Sitemaps.WriteContents | src/tools/sitemaps.ts:59-61 | the inner loop appends exactly one line per content entry, in order |
| Sitemaps.WriteSitemap | src/tools/sitemaps.ts:45-62 | one iteration appends the sitemap's row, then its content lines only when the list is present and non-empty |
| Sitemaps.WriteSitemaps | src/tools/sitemaps.ts:37-63 | the outer loop appends every sitemap's block, in order |
| Sitemaps.FormatSitemapsList | src/tools/sitemaps.ts:19-66 | the method's nested loops build exactly the specified list text |
| Sitemaps.ListSitemaps | src/tools/sitemaps.ts:71-90 | a missing sitemap list is an empty one; a failure answers with the tool error |
| Sitemaps.ListSitemapsText | src/tools/sitemaps.ts:71-90 | a failure gives text starting `Error: `; a missing or empty list gives `No sitemaps found for <siteUrl>`; otherwise the listing starts with `Sitemaps for <siteUrl>` |
| Sitemaps.SubmitSitemapText | src/tools/sitemaps.ts:95-119 | a successful submit answers with the confirmation naming both URLs; a failed one with the formatted tool error of that failure |
| Sitemaps.DeleteSitemapText | src/tools/sitemaps.ts:124-147 | a successful delete answers with the confirmation naming both URLs; a failed one with the formatted tool error of that failure |
| Sitemaps.SubmittedNamesBothUrls | src/tools/sitemaps.ts:112-114 | the confirmation names both the sitemap and the site |
| Sitemaps.DeletedNamesBothUrls | src/tools/sitemaps.ts:141-142 | the confirmation names both the sitemap and the site |
| Sitemaps.FailuresAreText | src/tools/sitemaps.ts:86-146 | a failure of any of the three calls answers with the formatted tool error, never a thrown error |
| UrlInspection.Optional | src/tools/url-inspection.ts:29-49 | an optional field gives one line, caption then value, exactly when the value is non-empty |
| UrlInspection.MobileIssueLines | src/tools/url-inspection.ts:59-66 | one line per mobile issue |
| UrlInspection.RichIssueLines | src/tools/url-inspection.ts:85 | one line per rich-result issue |
| UrlInspection.AmpIssueLines | src/tools/url-inspection.ts:97-111 | one line per AMP issue |
| UrlInspection.Headings | src/tools/url-inspection.ts:12-114 | the headings of a report are its `## ` lines, in order |
| UrlInspection.HeadingsAppend | src/tools/url-inspection.ts:12-114 | the headings of joined text are the headings of each part, in order |
| UrlInspection.IndexHeadings | src/tools/url-inspection.ts:26-51 | the index section has the one heading `## Indexing Status` |
| UrlInspection.MobileHeadings | src/tools/url-inspection.ts:54-68 | the mobile section has the one heading `## Mobile Usability` |
| UrlInspection.RichHeadings | src/tools/url-inspection.ts:71-94 | the rich-results section has the one heading `## Rich Results` |
| UrlInspection.AmpHeadings | src/tools/url-inspection.ts:97-111 | the AMP section has the one heading `## AMP` |
| UrlInspection.DetectedLinesIndented | src/tools/url-inspection.ts:78-90 | detected items and their sub-items are indented, so they never look like headings |
| UrlInspection.SectionsInOrder | src/tools/url-inspection.ts:21-111 | the report's headings are exactly those of the present results, in the order index, mobile, rich, AMP |
| UrlInspection.MobileNoIssuesIff | src/tools/url-inspection.ts:54-68 | `No mobile usability issues found.` appears iff there are no issues; with issues, an `Issues:` line and one line per issue follow |
| UrlInspection.UntypedItemsAddNothing | src/tools/url-inspection.ts:78-90 | a detected item without a rich result type adds no lines |
| UrlInspection.WriteIndexSection | src/tools/url-inspection.ts:26-51 | the method builds exactly the specified index section |
| UrlInspection.WriteMobileSection | src/tools/url-inspection.ts:54-68 | the method builds exactly the specified mobile section |
| UrlInspection.WriteMobileIssues | src/tools/url-inspection.ts:61-63 | the loop appends exactly one line per mobile issue, in order |
| UrlInspection.WriteRichIssues | src/tools/url-inspection.ts:83-87 | the loop appends exactly one line per issue of a sub-item, in order |
| UrlInspection.WriteSubItems | src/tools/url-inspection.ts:81-89 | the loop appends the issue lines of every sub-item, in order |
| UrlInspection.WriteDetectedItem | src/tools/url-inspection.ts:79-90 | an item with a non-empty type appends its type line and its sub-items' issues; any other item appends nothing |
| UrlInspection.WriteDetectedItems | src/tools/url-inspection.ts:78-90 | the nested loop appends exactly the specified lines for the detected items |
| UrlInspection.WriteRichSection | src/tools/url-inspection.ts:71-94 | the method builds exactly the specified rich-results section |
| UrlInspection.WriteRichBody | src/tools/url-inspection.ts:75-91 | the `Detected Items:` caption and the items' lines are appended only when there are detected items |
| UrlInspection.WriteAmpIssues | src/tools/url-inspection.ts:106-108 | the loop appends exactly one line per AMP issue, in order |
| UrlInspection.WriteAmpSection | src/tools/url-inspection.ts:97-111 | the method builds exactly the specified AMP section |
| UrlInspection.FormatInspectionResult | src/tools/url-inspection.ts:12-114 | the report is the no-data message without an inspection result, otherwise the specified report |
| UrlInspection.InspectionText | src/tools/url-inspection.ts:12-114 | the text is the no-data message exactly when there is no inspection result, and otherwise starts with the `URL Inspection Report` title |
| UrlInspection.InspectUrl | src/tools/url-inspection.ts:119-146 | the tool's text is the report of the client's answer, or the tool error when the call fails |
| UrlInspection.ReportStartsWithHeading | src/tools/url-inspection.ts:21-23 | every report opens with its title, a rule of 50 `=`, and the inspected URL |
| UrlInspection.InspectUrlOutcomes | src/tools/url-inspection.ts:119-146 | a failed call answers with the tool error; an answer without a result gives the no-data message for the inspected URL |
| Tools.SiteEntries | src/tools/list-sites.ts:22-27 | one entry per site, in order, keeping URL and permission level |
| Tools.ListSites | src/tools/list-sites.ts:11-32 | the tool's text is the sites list, a missing list being empty, or the tool error when the call fails |
| Tools.ParseThenRun | src/tools/index.ts:77-100 | a case parses the arguments first: rejected arguments throw the schema's issues and the handler never runs; accepted ones go to the handler as parsed |
| Tools.ExecuteTool | src/tools/index.ts:68-105 | an unknown name answers `Unknown tool: <name>`; the call throws exactly when its schema rejects the arguments, and then with those issues |
| Tools.Dispatch | src/tools/index.ts:73-104 | a selected case is the one the table publishes under that exact name, with the schema that case serves |
| Tools.TableNamesDistinct | src/tools/index.ts:32-63 | the table holds six tools with pairwise distinct names |
| Tools.DispatchMatchesTable | src/tools/index.ts:32-105 | a name is dispatched iff it is in the table, and to the handler of the schema published with it |
| Tools.UnknownNameReachesNoHandler | src/tools/index.ts:102-103 | the answer to an unknown name depends on neither the client nor the arguments |
| Tools.ListSitesIgnoresArguments | src/tools/index.ts:74-75 | `gsc.list_sites` ignores its arguments and never fails validation |
| Tools.RejectedCallReachesNoHandler | src/tools/index.ts:77-100 | arguments are validated before the client is called: a rejected call fails the same whatever the client |
| Tools.EmptyArgumentsRejected | src/tools/index.ts:77-100 | every tool but `gsc.list_sites` rejects an empty argument object |
| Credentials.GetOAuthCredentials | src/auth/credentials.ts:31-43 | succeeds iff both variables are set and non-empty, with their values; otherwise the missing-credentials error |
| Credentials.GetServiceAccountCredentials | src/auth/credentials.ts:45-62 | `null` iff the variable is unset or empty; a missing file and an unparsable file each throw their error; otherwise the parsed value |
| Credentials.GetTokenPath | src/auth/credentials.ts:64-66 | the variable whenever it is set, even to empty, else `./token.json` |
| Credentials.LoadStoredToken | src/auth/credentials.ts:68-81 | a value iff the token file exists and parses, and then that value; never an error |
| Credentials.GetLogLevel | src/auth/credentials.ts:87-93 | always a known level: the lower-cased variable when it names one, else `info` |
| Credentials.OAuthCredentialsDependOnlyOnTheirVariables | src/auth/credentials.ts:31-43 | the OAuth credentials depend only on their two variables |
| Credentials.EmptyTokenPathHasNoToken | src/auth/credentials.ts:64-81 | a token path set to empty finds no token |
| Credentials.LogLevelIgnoresCase | src/auth/credentials.ts:87-93 | a level written in upper case selects that level |
| OAuth.CreateOAuth2Client | src/auth/oauth.ts:22-30 | a client exists iff the credentials resolve, with those credentials and the local redirect URI |
| OAuth.ConsentRequest | src/auth/oauth.ts:35-41 | consent asks for offline access to the webmasters scope, prompting every time |
| OAuth.ExchangeCodeForTokens | src/auth/oauth.ts:46-65 | succeeds iff the exchange gives both an access and a refresh token; the record keeps them and the type and scope, with the given expiry or now plus one hour |
| OAuth.TokenJson | src/auth/oauth.ts:56-62 | the stored record is an object, with `scope` exactly when the record has one |
| OAuth.TokenJsonRoundTrip | src/auth/oauth.ts:56-73 | a saved record reads back as the same record |
| OAuth.SaveToken | src/auth/oauth.ts:70-73 | the token file holds the token after a successful write, and nothing changes when the write throws |
| OAuth.SaveThenLoad | src/auth/oauth.ts:70-73 | loading after a successful save gives back the saved token |
| OAuth.HandleCallback | src/auth/oauth.ts:98-150 | other paths are ignored; an `error` parameter rejects with 400; a missing code rejects with 400; a failed exchange or save rejects with 500; otherwise 200 and the flow resolves with the saved record |
| OAuth.Settle | src/auth/oauth.ts:95-162 | the promise settles once: a later resolve or reject changes nothing |
| OAuth.Step | src/auth/oauth.ts:95-162 | a closed server stays closed, the timeout always closes it, and only a callback request can resolve the flow |
| OAuth.Run | src/auth/oauth.ts:95-162 | no events leave the state unchanged, and a closed server stays closed whatever follows |
| OAuth.StepKeepsSettlement | src/auth/oauth.ts:95-162 | no event changes a settled flow's outcome |
| OAuth.RunKeepsSettlement | src/auth/oauth.ts:95-162 | a settled flow keeps its outcome through any sequence of events |
| OAuth.RunAppend | src/auth/oauth.ts:95-162 | running two sequences of events is running their concatenation |
| OAuth.FirstSettlementWins | src/auth/oauth.ts:95-162 | the flow's outcome is that of the first event that settles it |
| OAuth.TimeoutRejectsOnlyPending | src/auth/oauth.ts:158-161 | the timeout rejects a pending flow, leaves a settled one alone, and always closes the server |
| OAuth.ResolvedOnlyAfterSave | src/auth/oauth.ts:122-141 | the flow resolves only with a record that was saved, after a successful write |
| OAuth.ErrorParameterWins | src/auth/oauth.ts:106-112 | with an `error` parameter the answer depends on neither the token endpoint nor the file system |
| OAuth.OAuthFlow.Handle | src/auth/oauth.ts:98-150 | a request steps the flow with the handler's verdict and writes the token file only on a successful exchange |
| OAuth.OAuthFlow.OnTimeout | src/auth/oauth.ts:158-161 | the timeout steps the flow as specified |
| OAuth.OAuthFlow.OnCloseTimer | src/auth/oauth.ts:142 | the close timer steps the flow as specified |
| OAuth.NeedsRefresh | src/auth/oauth.ts:188 | a refresh happens exactly when `expiry_date` is a non-zero number strictly before now; a missing, zero or non-numeric one never refreshes |
| OAuth.NeedsRefreshLater | src/auth/oauth.ts:188 | a token that needs a refresh now still needs one at any later time |
| OAuth.MergeRefreshed | src/auth/oauth.ts:191-195 | the refreshed record keeps every other field and replaces the access token and expiry only with what the provider returned |
| OAuth.MergeKeepsRefreshToken | src/auth/oauth.ts:191-195 | a refresh keeps the refresh token, token type and scope |
| OAuth.MergedRecordReadsBack | src/auth/oauth.ts:188-196 | a refresh that returns both fields yields a valid record that needs no refresh before its new expiry |
| OAuth.GoogleAuthAttempt | src/auth/oauth.ts:169-207 | fails without credentials, or without a truthy token naming the token path; uses a current token as it is; refreshes an expired one and saves the merged record, failing with the refresh error when the refresh or the save fails |
| OAuth.GetGoogleAuth | src/auth/oauth.ts:169-207 | the method's answer and the new file system are as specified |
| OAuth.RefreshedTokenPersists | src/auth/oauth.ts:188-196 | after a successful call the token file reads back as the token the client holds |
| OAuth.FilesChangeOnlyOnRefresh | src/auth/oauth.ts:188-196 | the file system changes only when an expired token was refreshed and the call succeeds |
| OAuth.IsAuthConfigured | src/auth/oauth.ts:212-219 | true iff the credentials resolve and a token file exists |
| OAuth.CorruptTokenIsConfiguredButFails | src/auth/oauth.ts:173-179 | an existing token file that does not parse counts as configured, and then authentication fails for want of a token |
| Host.Disk.WriteJson | src/auth/oauth.ts:70-73 | a write to a writable path replaces that file with the JSON text; a write to any other path throws and changes nothing |
| Server.IsServiceAccountConfigured | src/auth/service-account.ts:40-46 | true exactly when the variable is set, names an existing file, and that file parses to JSON other than `null`; a read that would throw gives false |
| Server.ServiceAccountAuth | src/auth/service-account.ts:14-35 | fails exactly when reading the credentials throws, with the same error; gives credentials only when they are truthy, and then exactly those read |
| Server.CreateServerAttempt | src/server.ts:18-43 | OAuth is used whenever configured; otherwise start-up succeeds exactly when a configured service account has truthy credentials, and then with those credentials; otherwise it fails with the no-authentication error |
| Server.CreateServer | src/server.ts:18-43 | the method's client and file system are as specified |
| Server.ConfiguredServiceAccountReads | src/auth/service-account.ts:40-46 | a configured service account is read again without an error |
| Server.OAuthIgnoresServiceAccount | src/server.ts:25-35 | with OAuth configured, the service-account variable makes no difference |
| Server.CorruptTokenDoesNotFallBack | src/server.ts:25-28 | a corrupt token file fails start-up even when a service account would work |
| Server.FalsyServiceAccountYieldsNoClient | src/auth/service-account.ts:14-19 | a service-account file holding a falsy value counts as configured but gives no client |
| Server.ListTools | src/server.ts:64-73 | ListTools lists every table entry, in order, with its name, description and schema |
| Server.CallTool | src/server.ts:76-104 | a CallTool answer is one text item: the tool's text, or an error flagged `isError` naming the tool and the thrown message |
| Server.MissingArgumentsAreEmpty | src/server.ts:81 | a call without arguments is a call with `{}` |
| Server.UnknownToolIsNotAnError | src/server.ts:81-90 | an unknown tool is answered as text, not flagged as an error |
| Server.ErrorAnswerShowsIssues | src/server.ts:91-103 | every error answer comes from a rejected argument list and shows its issues after the tool's name |

## Left out

- I/O is not modelled: the HTTP listener on port 3000, the HTML bodies, opening the browser and all console and logger output. Only status codes, settlement and file writes are modelled.
- `runServer`, the stdio transport, `src/index.ts` and the CLI of `src/auth/cli.ts` are left out. They only wire the modelled parts to the process.
- JSON text is not modelled: a file is either parsed JSON, text that does not parse, or unreadable (`Host.FileContent`).
- `zodToJsonSchema` is not modelled: a published schema is named, not rendered.
- The Zod issue message format is simplified: `Inputs.IssuesMessage` joins path and problem per issue, where Zod prints its own JSON.
- Floating-point rendering (`toLocaleString`, `toFixed`) is not modelled: the locale is a parameter (`Format.Renderers`), and sums and averages are over reals.
- String case and length are ASCII only: upper- and lower-casing map only ASCII letters, and lengths count characters, not UTF-16 units.
- `null` and `undefined` are merged into one absent value (`None`), so an absent status renders as `undefined`.
- The date check of `new Date(...)` is a parameter of `Dates.IsValidDateString`, and today and `daysAgo` are parameters of `Dates.Calendar`.
- `ListSitesInputSchema` is published in the table but never parsed; `gsc.list_sites` ignores its arguments.
- `getDefaultSite` is not modelled: no modelled operation reads it.
- OAuth.NeedsRefresh: a stored `expiry_date` that is not a number never triggers a refresh. JavaScript would coerce a numeric string when comparing.
- OAuth.OAuthFlow.Handle: a request URL that fails to parse, and the handler's catch branch for it, are not modelled. Each request is handled in one step, without the interleaving of other requests during the exchange.
- The one-second close timer armed after a success is an event (`CloseTimerFired`), not a clock.
- The five-minute timeout of the flow is an event (`TimeoutFired`), not a clock: nothing in the model fixes when it fires.
- `getAuthUrl` is not modelled beyond its options: the URL is the client library's `generateAuthUrl`, and `OAuth.ConsentRequest` states what it is asked for.
- The server's name and version, given to the MCP `Server` constructor, are not modelled, because the protocol handshake that reports them is not.
- Server.CallTool: the `Unknown error` fallback for a thrown non-Error is unreachable here, because the only values the model throws are validation errors.
- The service-account client is the parsed credentials value; `google.auth.GoogleAuth` and its use of `client_email` and `private_key` are not modelled.
- The message of a refused token write (`Host.WriteError`) is ENOENT for the empty path and EACCES for every other refusal. The operating system's actual error code for a read-only file, a missing directory or a full disk is not modelled.
