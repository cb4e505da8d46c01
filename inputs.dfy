/** The input schemas of src/schemas/inputs.ts as a validator over the parsed
    tool arguments. Like the schema library, a parse checks every key of the
    schema in declaration order, collects all problems it finds, fills in the
    defaults of omitted keys and drops keys the schema does not name. Whether a
    string is a URL is left to the caller (`isUrl`). */
module Inputs {
  import opened Wrappers
  import opened Strings
  import opened Host
  import Dates

  datatype Dimension = Query | Page | Country | Device | Date {
    function Name(): string {
      match this
      case Query => "query"
      case Page => "page"
      case Country => "country"
      case Device => "device"
      case Date => "date"
    }
  }

  datatype FilterOperator = Equals | Contains | NotContains | NotEquals {
    function Name(): string {
      match this
      case Equals => "equals"
      case Contains => "contains"
      case NotContains => "notContains"
      case NotEquals => "notEquals"
    }
  }

  datatype SearchType = Web | Image | Video | News | Discover | GoogleNews {
    function Name(): string {
      match this
      case Web => "web"
      case Image => "image"
      case Video => "video"
      case News => "news"
      case Discover => "discover"
      case GoogleNews => "googleNews"
    }
  }

  const DimensionNames: set<string> := {"query", "page", "country", "device", "date"}
  const OperatorNames: set<string> := {"equals", "contains", "notContains", "notEquals"}
  const SearchTypeNames: set<string> := {"web", "image", "video", "news", "discover", "googleNews"}

  function DimensionFromName(s: string): (r: Option<Dimension>)
    ensures r.Some? <==> s in DimensionNames
    ensures r.Some? ==> r.value.Name() == s
  {
    if s == "query" then Some(Query)
    else if s == "page" then Some(Page)
    else if s == "country" then Some(Country)
    else if s == "device" then Some(Device)
    else if s == "date" then Some(Date)
    else None
  }

  function OperatorFromName(s: string): (r: Option<FilterOperator>)
    ensures r.Some? <==> s in OperatorNames
    ensures r.Some? ==> r.value.Name() == s
  {
    if s == "equals" then Some(Equals)
    else if s == "contains" then Some(Contains)
    else if s == "notContains" then Some(NotContains)
    else if s == "notEquals" then Some(NotEquals)
    else None
  }

  function SearchTypeFromName(s: string): (r: Option<SearchType>)
    ensures r.Some? <==> s in SearchTypeNames
    ensures r.Some? ==> r.value.Name() == s
  {
    if s == "web" then Some(Web)
    else if s == "image" then Some(Image)
    else if s == "video" then Some(Video)
    else if s == "news" then Some(News)
    else if s == "discover" then Some(Discover)
    else if s == "googleNews" then Some(GoogleNews)
    else None
  }

  /** Each enum value is recovered from its name. */
  lemma EnumNamesRoundTrip(d: Dimension, o: FilterOperator, t: SearchType)
    ensures DimensionFromName(d.Name()) == Some(d)
    ensures OperatorFromName(o.Name()) == Some(o)
    ensures SearchTypeFromName(t.Name()) == Some(t)
  {
  }

  datatype DimensionFilter = DimensionFilter(dimension: Dimension, operator: FilterOperator, expression: string)

  datatype SearchAnalyticsInput = SearchAnalyticsInput(
    siteUrl: string,
    days: Option<int>,
    startDate: Option<string>,
    endDate: Option<string>,
    dimensions: seq<Dimension>,
    rowLimit: int,
    startRow: int,
    searchType: SearchType,
    filters: Option<seq<DimensionFilter>>)

  datatype InspectUrlInput = InspectUrlInput(siteUrl: string, inspectionUrl: string)

  datatype ListSitemapsInput = ListSitemapsInput(siteUrl: string)

  /** The shape shared by the submit-sitemap and delete-sitemap schemas. */
  datatype SitemapUrlInput = SitemapUrlInput(siteUrl: string, sitemapUrl: string)

  const DefaultDimensions: seq<Dimension> := [Query]
  const DefaultRowLimit := 100
  const MaxRowLimit := 25000
  const DefaultStartRow := 0
  const MaxDays := 540

  datatype PathItem = Key(name: string) | Index(i: nat)

  datatype Problem =
    | Required                       // a required key is missing
    | InvalidType(expected: string)  // the value has the wrong JSON type
    | NotInteger
    | TooSmall(minimum: int)
    | TooBig(maximum: int)
    | InvalidEnum
    | InvalidRegex
    | InvalidUrl

  datatype Issue = Issue(path: seq<PathItem>, problem: Problem)

  type Args = map<string, Json>

  type Parsed<T> = Result<T, seq<Issue>>

  /** The issues of a parse, none when it succeeded. */
  function Problems<T>(r: Parsed<T>): seq<Issue> {
    if r.Failure? then r.error else []
  }

  /** A parse that fails always reports at least one issue. */
  predicate Reported<T>(r: Parsed<T>) {
    r.Failure? ==> r.error != []
  }

  // ---------------------------------------------------------------- values

  function StringValue(v: Json, path: seq<PathItem>): (r: Parsed<string>)
    ensures r.Success? <==> v.JStr?
    ensures r.Success? ==> r.value == v.s
    ensures Reported(r)
  {
    if v.JStr? then Success(v.s) else Failure([Issue(path, InvalidType("string"))])
  }

  /** A string that must match `^\d{4}-\d{2}-\d{2}$`. */
  function DateValue(v: Json, path: seq<PathItem>): (r: Parsed<string>)
    ensures r.Success? <==> v.JStr? && Dates.MatchesDatePattern(v.s)
    ensures r.Success? ==> r.value == v.s
    ensures Reported(r)
  {
    if !v.JStr? then Failure([Issue(path, InvalidType("string"))])
    else if !Dates.MatchesDatePattern(v.s) then Failure([Issue(path, InvalidRegex)])
    else Success(v.s)
  }

  /** A string that must be a URL. */
  function UrlValue(v: Json, path: seq<PathItem>, isUrl: string -> bool): (r: Parsed<string>)
    ensures r.Success? <==> v.JStr? && isUrl(v.s)
    ensures r.Success? ==> r.value == v.s
    ensures Reported(r)
  {
    if !v.JStr? then Failure([Issue(path, InvalidType("string"))])
    else if !isUrl(v.s) then Failure([Issue(path, InvalidUrl)])
    else Success(v.s)
  }

  predicate IsInteger(n: real) {
    n.Floor as real == n
  }

  /** A number that is an integer within `[min, max]` (no upper bound when `max` is None). */
  predicate IntInRange(v: Json, min: int, max: Option<int>) {
    v.JNum? && IsInteger(v.n) && min as real <= v.n && (max.Some? ==> v.n <= max.value as real)
  }

  /** `z.number().int().min(min).max(max)`: the three checks each add their own issue. */
  function IntValue(v: Json, path: seq<PathItem>, min: int, max: Option<int>): (r: Parsed<int>)
    ensures r.Success? <==> IntInRange(v, min, max)
    ensures r.Success? ==> r.value as real == v.n && min <= r.value && (max.Some? ==> r.value <= max.value)
    ensures Reported(r)
  {
    if !v.JNum? then Failure([Issue(path, InvalidType("number"))])
    else
      var issues :=
        (if !IsInteger(v.n) then [Issue(path, NotInteger)] else [])
        + (if v.n < min as real then [Issue(path, TooSmall(min))] else [])
        + (if max.Some? && v.n > max.value as real then [Issue(path, TooBig(max.value))] else []);
      if issues == [] then Success(v.n.Floor) else Failure(issues)
  }

  function DimensionValue(v: Json, path: seq<PathItem>): (r: Parsed<Dimension>)
    ensures r.Success? <==> v.JStr? && v.s in DimensionNames
    ensures r.Success? ==> r.value.Name() == v.s
    ensures Reported(r)
  {
    if !v.JStr? then Failure([Issue(path, InvalidType("string"))])
    else match DimensionFromName(v.s)
      case Some(d) => Success(d)
      case None => Failure([Issue(path, InvalidEnum)])
  }

  function OperatorValue(v: Json, path: seq<PathItem>): (r: Parsed<FilterOperator>)
    ensures r.Success? <==> v.JStr? && v.s in OperatorNames
    ensures r.Success? ==> r.value.Name() == v.s
    ensures Reported(r)
  {
    if !v.JStr? then Failure([Issue(path, InvalidType("string"))])
    else match OperatorFromName(v.s)
      case Some(o) => Success(o)
      case None => Failure([Issue(path, InvalidEnum)])
  }

  function SearchTypeValue(v: Json, path: seq<PathItem>): (r: Parsed<SearchType>)
    ensures r.Success? <==> v.JStr? && v.s in SearchTypeNames
    ensures r.Success? ==> r.value.Name() == v.s
    ensures Reported(r)
  {
    if !v.JStr? then Failure([Issue(path, InvalidType("string"))])
    else match SearchTypeFromName(v.s)
      case Some(t) => Success(t)
      case None => Failure([Issue(path, InvalidEnum)])
  }

  predicate IsDimensionJson(v: Json) {
    v.JStr? && v.s in DimensionNames
  }

  /** The parse of a list extended by the parse of one more element: it succeeds
      when both do, and otherwise reports the issues of both. */
  function AppendParsed<T>(init: Parsed<seq<T>>, last: Parsed<T>): (r: Parsed<seq<T>>)
    ensures r.Success? <==> init.Success? && last.Success?
    ensures r.Success? ==> r.value == init.value + [last.value]
    ensures Reported(init) && Reported(last) ==> Reported(r)
  {
    if init.Success? && last.Success? then Success(init.value + [last.value])
    else Failure(Problems(init) + Problems(last))
  }

  /** The parse of a list of `items` extended by the parse of its last element
      keeps the two properties of a list parse: it succeeds exactly when every
      element is acceptable, and then holds one matching value per element. */
  lemma SnocParsed<T>(items: seq<Json>, init: Parsed<seq<T>>, last: Parsed<T>, ok: Json -> bool, matches: (T, Json) -> bool)
    requires items != []
    requires init.Success? <==> forall i :: 0 <= i < |items| - 1 ==> ok(items[i])
    requires init.Success? ==> |init.value| == |items| - 1 && forall i :: 0 <= i < |items| - 1 ==> matches(init.value[i], items[i])
    requires last.Success? <==> ok(items[|items| - 1])
    requires last.Success? ==> matches(last.value, items[|items| - 1])
    requires Reported(init) && Reported(last)
    ensures var r := AppendParsed(init, last);
      && (r.Success? <==> forall i :: 0 <= i < |items| ==> ok(items[i]))
      && (r.Success? ==> |r.value| == |items| && forall i :: 0 <= i < |items| ==> matches(r.value[i], items[i]))
      && Reported(r)
  {
    var r := AppendParsed(init, last);
    if r.Success? {
      assert forall i :: 0 <= i < |items| - 1 ==> r.value[i] == init.value[i];
    }
  }

  /** A parsed dimension is the one its string names. */
  predicate DimensionMatches(d: Dimension, v: Json) {
    v.JStr? && d.Name() == v.s
  }

  /** The elements of a `z.array(DimensionEnum)`, each checked at its own index. */
  function DimensionItems(items: seq<Json>, path: seq<PathItem>): (r: Parsed<seq<Dimension>>)
    ensures r.Success? <==> forall i :: 0 <= i < |items| ==> IsDimensionJson(items[i])
    ensures r.Success? ==> |r.value| == |items| && forall i :: 0 <= i < |items| ==> DimensionMatches(r.value[i], items[i])
    ensures Reported(r)
  {
    if items == [] then Success([])
    else
      var n := |items| - 1;
      var init := DimensionItems(items[..n], path);
      var last := DimensionValue(items[n], path + [Index(n)]);
      assert forall i :: 0 <= i < n ==> items[..n][i] == items[i];
      SnocParsed(items, init, last, IsDimensionJson, DimensionMatches);
      AppendParsed(init, last)
  }

  function DimensionsValue(v: Json, path: seq<PathItem>): (r: Parsed<seq<Dimension>>)
    ensures r.Success? <==> v.JArr? && forall i :: 0 <= i < |v.items| ==> IsDimensionJson(v.items[i])
    ensures r.Success? ==> |r.value| == |v.items| && forall i :: 0 <= i < |v.items| ==> DimensionMatches(r.value[i], v.items[i])
    ensures Reported(r)
  {
    if v.JArr? then DimensionItems(v.items, path) else Failure([Issue(path, InvalidType("array"))])
  }

  /** A well-formed filter object: an enum dimension, an enum operator and a string expression. */
  predicate IsFilterJson(v: Json) {
    v.JObj?
    && "dimension" in v.fields && IsDimensionJson(v.fields["dimension"])
    && "operator" in v.fields && v.fields["operator"].JStr? && v.fields["operator"].s in OperatorNames
    && "expression" in v.fields && v.fields["expression"].JStr?
  }

  /** A key of an object that the schema requires. */
  function RequiredKey(obj: Args, key: string, path: seq<PathItem>): (r: Parsed<Json>)
    ensures r.Success? <==> key in obj
    ensures r.Success? ==> r.value == obj[key]
    ensures Reported(r)
  {
    if key in obj then Success(obj[key]) else Failure([Issue(path + [Key(key)], Required)])
  }

  /** A parsed filter carries the dimension, operator and expression of its object. */
  predicate FilterMatches(f: DimensionFilter, v: Json) {
    IsFilterJson(v)
    && f.dimension.Name() == v.fields["dimension"].s
    && f.operator.Name() == v.fields["operator"].s
    && f.expression == v.fields["expression"].s
  }

  function FilterValue(v: Json, path: seq<PathItem>): (r: Parsed<DimensionFilter>)
    ensures r.Success? <==> IsFilterJson(v)
    ensures r.Success? ==> FilterMatches(r.value, v)
    ensures Reported(r)
  {
    if !v.JObj? then Failure([Issue(path, InvalidType("object"))])
    else
      var dk := RequiredKey(v.fields, "dimension", path);
      var d := if dk.Success? then DimensionValue(dk.value, path + [Key("dimension")]) else Failure(dk.error);
      var ok := RequiredKey(v.fields, "operator", path);
      var o := if ok.Success? then OperatorValue(ok.value, path + [Key("operator")]) else Failure(ok.error);
      var ek := RequiredKey(v.fields, "expression", path);
      var e := if ek.Success? then StringValue(ek.value, path + [Key("expression")]) else Failure(ek.error);
      if d.Success? && o.Success? && e.Success? then Success(DimensionFilter(d.value, o.value, e.value))
      else Failure(Problems(d) + Problems(o) + Problems(e))
  }

  function FilterItems(items: seq<Json>, path: seq<PathItem>): (r: Parsed<seq<DimensionFilter>>)
    ensures r.Success? <==> forall i :: 0 <= i < |items| ==> IsFilterJson(items[i])
    ensures r.Success? ==> |r.value| == |items| && forall i :: 0 <= i < |items| ==> FilterMatches(r.value[i], items[i])
    ensures Reported(r)
  {
    if items == [] then Success([])
    else
      var n := |items| - 1;
      var init := FilterItems(items[..n], path);
      var last := FilterValue(items[n], path + [Index(n)]);
      assert forall i :: 0 <= i < n ==> items[..n][i] == items[i];
      SnocParsed(items, init, last, IsFilterJson, FilterMatches);
      AppendParsed(init, last)
  }

  // ---------------------------------------------------------------- keys

  /** `days`: optional, an integer in [1, 540]. */
  predicate DaysOk(args: Args) {
    "days" !in args || IntInRange(args["days"], 1, Some(MaxDays))
  }

  function DaysField(args: Args): (r: Parsed<Option<int>>)
    ensures r.Success? <==> DaysOk(args)
    ensures r.Success? ==> r.value == (if "days" in args then Some(args["days"].n.Floor) else None)
    ensures r.Success? && r.value.Some? ==> 1 <= r.value.value <= MaxDays && r.value.value as real == args["days"].n
    ensures Reported(r)
  {
    if "days" !in args then Success(None)
    else
      var v := IntValue(args["days"], [Key("days")], 1, Some(MaxDays));
      if v.Success? then Success(Some(v.value)) else Failure(v.error)
  }

  /** `startDate` / `endDate`: optional, a string matching the date pattern. */
  predicate DateOk(args: Args, key: string) {
    key !in args || (args[key].JStr? && Dates.MatchesDatePattern(args[key].s))
  }

  function DateField(args: Args, key: string): (r: Parsed<Option<string>>)
    ensures r.Success? <==> DateOk(args, key)
    ensures r.Success? ==> r.value == (if key in args then Some(args[key].s) else None)
    ensures Reported(r)
  {
    if key !in args then Success(None)
    else
      var v := DateValue(args[key], [Key(key)]);
      if v.Success? then Success(Some(v.value)) else Failure(v.error)
  }

  /** `dimensions`: optional, an array of dimension names, `['query']` when omitted. */
  predicate DimensionsOk(args: Args) {
    "dimensions" !in args
    || (args["dimensions"].JArr? && forall i :: 0 <= i < |args["dimensions"].items| ==> IsDimensionJson(args["dimensions"].items[i]))
  }

  function DimensionsField(args: Args): (r: Parsed<seq<Dimension>>)
    ensures r.Success? <==> DimensionsOk(args)
    ensures r.Success? && "dimensions" !in args ==> r.value == DefaultDimensions
    ensures r.Success? && "dimensions" in args ==> (|r.value| == |args["dimensions"].items|
      && forall i :: 0 <= i < |r.value| ==> r.value[i].Name() == args["dimensions"].items[i].s)
    ensures Reported(r)
  {
    if "dimensions" !in args then Success(DefaultDimensions)
    else DimensionsValue(args["dimensions"], [Key("dimensions")])
  }

  /** `rowLimit` / `startRow`: optional integers with a lower bound, an optional
      upper bound and a default. */
  predicate BoundedOk(args: Args, key: string, min: int, max: Option<int>) {
    key !in args || IntInRange(args[key], min, max)
  }

  function BoundedField(args: Args, key: string, default: int, min: int, max: Option<int>): (r: Parsed<int>)
    ensures r.Success? <==> BoundedOk(args, key, min, max)
    ensures r.Success? && key !in args ==> r.value == default
    ensures r.Success? && key in args ==> (r.value as real == args[key].n && min <= r.value
      && (max.Some? ==> r.value <= max.value))
    ensures Reported(r)
  {
    if key !in args then Success(default) else IntValue(args[key], [Key(key)], min, max)
  }

  /** `searchType`: optional, one of six names, `'web'` when omitted. */
  predicate SearchTypeOk(args: Args) {
    "searchType" !in args || (args["searchType"].JStr? && args["searchType"].s in SearchTypeNames)
  }

  function SearchTypeField(args: Args): (r: Parsed<SearchType>)
    ensures r.Success? <==> SearchTypeOk(args)
    ensures r.Success? && "searchType" !in args ==> r.value == Web
    ensures r.Success? && "searchType" in args ==> r.value.Name() == args["searchType"].s
    ensures Reported(r)
  {
    if "searchType" !in args then Success(Web) else SearchTypeValue(args["searchType"], [Key("searchType")])
  }

  /** `filters`: optional, an array of filter objects. */
  predicate FiltersOk(args: Args) {
    "filters" !in args
    || (args["filters"].JArr? && forall i :: 0 <= i < |args["filters"].items| ==> IsFilterJson(args["filters"].items[i]))
  }

  function FiltersField(args: Args): (r: Parsed<Option<seq<DimensionFilter>>>)
    ensures r.Success? <==> FiltersOk(args)
    ensures r.Success? ==> (r.value.Some? <==> "filters" in args)
    ensures r.Success? && r.value.Some? ==> (|r.value.value| == |args["filters"].items|
      && forall i :: 0 <= i < |r.value.value| ==>
        r.value.value[i].dimension.Name() == args["filters"].items[i].fields["dimension"].s
        && r.value.value[i].operator.Name() == args["filters"].items[i].fields["operator"].s
        && r.value.value[i].expression == args["filters"].items[i].fields["expression"].s)
    ensures Reported(r)
  {
    if "filters" !in args then Success(None)
    else if !args["filters"].JArr? then Failure([Issue([Key("filters")], InvalidType("array"))])
    else
      var v := FilterItems(args["filters"].items, [Key("filters")]);
      if v.Success? then Success(Some(v.value)) else Failure(v.error)
  }

  /** A string key the schema requires. */
  function RequiredString(args: Args, key: string): (r: Parsed<string>)
    ensures r.Success? <==> key in args && args[key].JStr?
    ensures r.Success? ==> r.value == args[key].s
    ensures Reported(r)
  {
    var k := RequiredKey(args, key, []);
    if k.Success? then StringValue(k.value, [Key(key)]) else Failure(k.error)
  }

  /** A URL key the schema requires. */
  function RequiredUrl(args: Args, key: string, isUrl: string -> bool): (r: Parsed<string>)
    ensures r.Success? <==> key in args && args[key].JStr? && isUrl(args[key].s)
    ensures r.Success? ==> r.value == args[key].s
    ensures Reported(r)
  {
    var k := RequiredKey(args, key, []);
    if k.Success? then UrlValue(k.value, [Key(key)], isUrl) else Failure(k.error)
  }

  // ---------------------------------------------------------------- schemas

  /** What the search-analytics schema accepts, key by key. */
  predicate SearchAnalyticsArgsOk(args: Args) {
    "siteUrl" in args && args["siteUrl"].JStr?
    && DaysOk(args) && DateOk(args, "startDate") && DateOk(args, "endDate") && DimensionsOk(args)
    && BoundedOk(args, "rowLimit", 1, Some(MaxRowLimit)) && BoundedOk(args, "startRow", 0, None)
    && SearchTypeOk(args) && FiltersOk(args)
  }

  function SearchAnalyticsKeys(): set<string> {
    {"siteUrl", "days", "startDate", "endDate", "dimensions", "rowLimit", "startRow", "searchType", "filters"}
  }

  function ParseSearchAnalyticsInput(args: Args): (r: Parsed<SearchAnalyticsInput>)
    ensures r.Success? <==> SearchAnalyticsArgsOk(args)
    ensures Reported(r)
    ensures r.Success? ==> r.value.siteUrl == args["siteUrl"].s
    ensures r.Success? ==> Success(r.value.days) == DaysField(args)
    ensures r.Success? ==> Success(r.value.startDate) == DateField(args, "startDate")
    ensures r.Success? ==> Success(r.value.endDate) == DateField(args, "endDate")
    ensures r.Success? ==> Success(r.value.dimensions) == DimensionsField(args)
    ensures r.Success? ==> Success(r.value.rowLimit) == BoundedField(args, "rowLimit", DefaultRowLimit, 1, Some(MaxRowLimit))
    ensures r.Success? ==> Success(r.value.startRow) == BoundedField(args, "startRow", DefaultStartRow, 0, None)
    ensures r.Success? ==> Success(r.value.searchType) == SearchTypeField(args)
    ensures r.Success? ==> Success(r.value.filters) == FiltersField(args)
  {
    var siteUrl := RequiredString(args, "siteUrl");
    var days := DaysField(args);
    var startDate := DateField(args, "startDate");
    var endDate := DateField(args, "endDate");
    var dimensions := DimensionsField(args);
    var rowLimit := BoundedField(args, "rowLimit", DefaultRowLimit, 1, Some(MaxRowLimit));
    var startRow := BoundedField(args, "startRow", DefaultStartRow, 0, None);
    var searchType := SearchTypeField(args);
    var filters := FiltersField(args);
    if siteUrl.Success? && days.Success? && startDate.Success? && endDate.Success? && dimensions.Success?
      && rowLimit.Success? && startRow.Success? && searchType.Success? && filters.Success?
    then
      Success(SearchAnalyticsInput(siteUrl.value, days.value, startDate.value, endDate.value, dimensions.value,
        rowLimit.value, startRow.value, searchType.value, filters.value))
    else
      Failure(Problems(siteUrl) + Problems(days) + Problems(startDate) + Problems(endDate) + Problems(dimensions)
        + Problems(rowLimit) + Problems(startRow) + Problems(searchType) + Problems(filters))
  }

  function ParseInspectUrlInput(args: Args, isUrl: string -> bool): (r: Parsed<InspectUrlInput>)
    ensures r.Success? <==>
      "siteUrl" in args && args["siteUrl"].JStr?
      && "inspectionUrl" in args && args["inspectionUrl"].JStr? && isUrl(args["inspectionUrl"].s)
    ensures r.Success? ==> r.value == InspectUrlInput(args["siteUrl"].s, args["inspectionUrl"].s)
    ensures Reported(r)
  {
    var siteUrl := RequiredString(args, "siteUrl");
    var inspectionUrl := RequiredUrl(args, "inspectionUrl", isUrl);
    if siteUrl.Success? && inspectionUrl.Success? then Success(InspectUrlInput(siteUrl.value, inspectionUrl.value))
    else Failure(Problems(siteUrl) + Problems(inspectionUrl))
  }

  function ParseListSitemapsInput(args: Args): (r: Parsed<ListSitemapsInput>)
    ensures r.Success? <==> "siteUrl" in args && args["siteUrl"].JStr?
    ensures r.Success? ==> r.value == ListSitemapsInput(args["siteUrl"].s)
    ensures Reported(r)
  {
    var siteUrl := RequiredString(args, "siteUrl");
    if siteUrl.Success? then Success(ListSitemapsInput(siteUrl.value)) else Failure(siteUrl.error)
  }

  /** The submit-sitemap and the delete-sitemap schema, which are the same. */
  function ParseSitemapUrlInput(args: Args, isUrl: string -> bool): (r: Parsed<SitemapUrlInput>)
    ensures r.Success? <==>
      "siteUrl" in args && args["siteUrl"].JStr?
      && "sitemapUrl" in args && args["sitemapUrl"].JStr? && isUrl(args["sitemapUrl"].s)
    ensures r.Success? ==> r.value == SitemapUrlInput(args["siteUrl"].s, args["sitemapUrl"].s)
    ensures Reported(r)
  {
    var siteUrl := RequiredString(args, "siteUrl");
    var sitemapUrl := RequiredUrl(args, "sitemapUrl", isUrl);
    if siteUrl.Success? && sitemapUrl.Success? then Success(SitemapUrlInput(siteUrl.value, sitemapUrl.value))
    else Failure(Problems(siteUrl) + Problems(sitemapUrl))
  }

  /** Keys the schema does not name are dropped: adding one changes nothing. */
  lemma UnknownKeysIgnored(args: Args, key: string, v: Json, isUrl: string -> bool)
    requires key !in SearchAnalyticsKeys()
    ensures ParseSearchAnalyticsInput(args[key := v]) == ParseSearchAnalyticsInput(args)
    ensures key != "inspectionUrl" ==> ParseInspectUrlInput(args[key := v], isUrl) == ParseInspectUrlInput(args, isUrl)
    ensures key != "sitemapUrl" ==> ParseSitemapUrlInput(args[key := v], isUrl) == ParseSitemapUrlInput(args, isUrl)
    ensures ParseListSitemapsInput(args[key := v]) == ParseListSitemapsInput(args)
  {
    var a := args[key := v];
    assert forall k :: k in SearchAnalyticsKeys() ==> (k in a <==> k in args) && (k in a ==> a[k] == args[k]);
    assert RequiredString(a, "siteUrl") == RequiredString(args, "siteUrl");
    assert DaysField(a) == DaysField(args);
    assert DateField(a, "startDate") == DateField(args, "startDate");
    assert DateField(a, "endDate") == DateField(args, "endDate");
    assert DimensionsField(a) == DimensionsField(args);
    assert BoundedField(a, "rowLimit", DefaultRowLimit, 1, Some(MaxRowLimit))
      == BoundedField(args, "rowLimit", DefaultRowLimit, 1, Some(MaxRowLimit));
    assert BoundedField(a, "startRow", DefaultStartRow, 0, None) == BoundedField(args, "startRow", DefaultStartRow, 0, None);
    assert SearchTypeField(a) == SearchTypeField(args);
    assert FiltersField(a) == FiltersField(args);
    if key != "inspectionUrl" {
      assert RequiredUrl(a, "inspectionUrl", isUrl) == RequiredUrl(args, "inspectionUrl", isUrl);
    }
    if key != "sitemapUrl" {
      assert RequiredUrl(a, "sitemapUrl", isUrl) == RequiredUrl(args, "sitemapUrl", isUrl);
    }
  }

  /** With only a site URL, every default applies. */
  lemma SearchAnalyticsDefaults(site: string)
    ensures ParseSearchAnalyticsInput(map["siteUrl" := JStr(site)])
      == Success(SearchAnalyticsInput(site, None, None, None, [Query], 100, 0, Web, None))
  {
    var args := map["siteUrl" := JStr(site)];
    assert "days" !in args && "startDate" !in args && "endDate" !in args && "dimensions" !in args;
    assert "rowLimit" !in args && "startRow" !in args && "searchType" !in args && "filters" !in args;
  }

  /** Out-of-range numbers are refused: 0 and 541 days, 0 and 25001 rows, a negative start row, and a
      fractional row limit. */
  lemma SearchAnalyticsRefusesOutOfRange(args: Args, n: real)
    requires "siteUrl" in args && args["siteUrl"].JStr?
    ensures (n < 1.0 || n > 540.0) ==> ParseSearchAnalyticsInput(args["days" := JNum(n)]).Failure?
    ensures (n < 1.0 || n > 25000.0 || !IsInteger(n)) ==> ParseSearchAnalyticsInput(args["rowLimit" := JNum(n)]).Failure?
    ensures n < 0.0 ==> ParseSearchAnalyticsInput(args["startRow" := JNum(n)]).Failure?
  {
    var a1, a2, a3 := args["days" := JNum(n)], args["rowLimit" := JNum(n)], args["startRow" := JNum(n)];
    assert a1["days"] == JNum(n) && a2["rowLimit"] == JNum(n) && a3["startRow"] == JNum(n);
  }

  /** The rendering of a validation failure that the dispatcher throws. Each issue
      is shown as its path and its problem, one per line. */
  function IssuesMessage(issues: seq<Issue>): string {
    Join(seq(|issues|, i requires 0 <= i < |issues| => IssueText(issues[i])), "\n")
  }

  function IssueText(issue: Issue): string {
    Join(seq(|issue.path|, i requires 0 <= i < |issue.path| => PathItemText(issue.path[i])), ".") + ": "
      + ProblemText(issue.problem)
  }

  function PathItemText(p: PathItem): string {
    match p
    case Key(name) => name
    case Index(i) => NatToString(i)
  }

  function ProblemText(p: Problem): string {
    match p
    case Required => "Required"
    case InvalidType(expected) => "Expected " + expected
    case NotInteger => "Expected integer, received float"
    case TooSmall(m) => "Number must be greater than or equal to " + IntToString(m)
    case TooBig(m) => "Number must be less than or equal to " + IntToString(m)
    case InvalidEnum => "Invalid enum value"
    case InvalidRegex => "Invalid"
    case InvalidUrl => "Invalid url"
  }
}
