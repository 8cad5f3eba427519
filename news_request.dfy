/**
  The request side of the news feed: which endpoint is queried, the query
  parameters sent with it, and how a failed request is classified into the
  message shown to the reader and the gate it closes.
 */
module NewsRequest {
  import opened Api

  /** The two NewsAPI endpoints the feed can query. */
  datatype Endpoint = TopHeadlines | Everything

  /** Number of articles asked for in one request (MAX_ITEMS). */
  const MaxItems := 20

  function EndpointUrl(e: Endpoint): string
  {
    match e
    case TopHeadlines => "https://newsapi.org/v2/top-headlines"
    case Everything => "https://newsapi.org/v2/everything"
  }

  /** A query-parameter value: the page size is a number, every other value a string. */
  datatype ParamValue = Text(text: string) | Number(number: int)

  /** The query parameters the feed may send: apiKey, pageSize, country, category, q, sortBy, from, to and sources. */
  datatype ParamKey = ApiKey | PageSize | Country | Category | Query | SortBy | From | To | Sources

  type Params = map<ParamKey, ParamValue>

  /** The value a parameter map holds for `k`, if it sends `k` at all. */
  function Lookup(p: Params, k: ParamKey): Option<ParamValue>
  {
    if k in p then Some(p[k]) else None
  }

  /** `value || undefined` for one string filter. */
  function UnlessEmpty(value: string): (v: Option<ParamValue>)
    ensures v.Some? <==> value != ""
    ensures v.Some? ==> v.value == Text(value)
  {
    if value == "" then None else Some(Text(value))
  }

  /**
    The parameter table of the feed, one parameter at a time: what is sent
    for `k` when fetching `endpoint` with the given filters.
   */
  function ParamFor(k: ParamKey, apiKey: string, endpoint: Endpoint, query: string, category: string,
                    source: string, dateFrom: string, dateTo: string): (v: Option<ParamValue>)
    ensures (k == ApiKey || k == PageSize) ==> v.Some?
    ensures k != ApiKey && v.Some? ==> v.value != Text("")
    ensures endpoint == Everything && (k == Country || k == Category) ==> v.None?
    ensures endpoint == TopHeadlines && (k == SortBy || k == From || k == To) ==> v.None?
  {
    match k
    case ApiKey => Some(Text(apiKey))
    case PageSize => Some(Number(MaxItems))
    case Country => if endpoint == TopHeadlines then Some(Text("us")) else None
    case Category => if endpoint == TopHeadlines then UnlessEmpty(category) else None
    case Query => UnlessEmpty(query)
    case SortBy => if endpoint == Everything then Some(Text("publishedAt")) else None
    case From => if endpoint == Everything then UnlessEmpty(dateFrom) else None
    case To => if endpoint == Everything then UnlessEmpty(dateTo) else None
    case Sources => UnlessEmpty(source)
  }

  /**
    `key: value || undefined`: an empty filter becomes `undefined`, and the
    HTTP client leaves undefined parameters out of the query string.
   */
  function SetUnlessEmpty(p: Params, key: ParamKey, value: string): (q: Params)
    ensures Lookup(q, key) == if value == "" then Lookup(p, key) else Some(Text(value))
    ensures forall k :: k != key ==> Lookup(q, k) == Lookup(p, k)
  {
    if value == "" then p else p[key := Text(value)]
  }

  /** The object fetchNews builds when the endpoint is top headlines, before the source is added. */
  function TopHeadlinesParams(apiKey: string, query: string, category: string): (p: Params)
    ensures forall k :: k != Sources ==> Lookup(p, k) == ParamFor(k, apiKey, TopHeadlines, query, category, "", "", "")
    ensures Sources !in p
  {
    var base := map[ApiKey := Text(apiKey), PageSize := Number(MaxItems), Country := Text("us")];
    SetUnlessEmpty(SetUnlessEmpty(base, Category, category), Query, query)
  }

  /** The object fetchNews builds when the endpoint is everything, before the source is added. */
  function EverythingParams(apiKey: string, query: string, dateFrom: string, dateTo: string): (p: Params)
    ensures forall k :: k != Sources ==> Lookup(p, k) == ParamFor(k, apiKey, Everything, query, "", "", dateFrom, dateTo)
    ensures Sources !in p
  {
    var base := map[ApiKey := Text(apiKey), PageSize := Number(MaxItems)];
    SetUnlessEmpty(SetUnlessEmpty(SetUnlessEmpty(base, Query, query)[SortBy := Text("publishedAt")],
                                  From, dateFrom), To, dateTo)
  }

  /** The `params` object fetchNews builds for one request: exactly the parameter table. */
  function BuildParams(apiKey: string, endpoint: Endpoint, query: string, category: string,
                       source: string, dateFrom: string, dateTo: string): (p: Params)
    ensures forall k :: Lookup(p, k) == ParamFor(k, apiKey, endpoint, query, category, source, dateFrom, dateTo)
  {
    var params := match endpoint
      case TopHeadlines => TopHeadlinesParams(apiKey, query, category)
      case Everything => EverythingParams(apiKey, query, dateFrom, dateTo);
    if source != "" then params[Sources := Text(source)] else params
  }

  /** The request always carries the key and the page size, and never a filter with an empty value. */
  lemma ParamsNeverEmpty(apiKey: string, endpoint: Endpoint, query: string, category: string,
                         source: string, dateFrom: string, dateTo: string)
    ensures var p := BuildParams(apiKey, endpoint, query, category, source, dateFrom, dateTo);
      && ApiKey in p && p[ApiKey] == Text(apiKey) && PageSize in p && p[PageSize] == Number(MaxItems)
      && forall k :: k in p && k != ApiKey ==> p[k] != Text("")
  {
    var p := BuildParams(apiKey, endpoint, query, category, source, dateFrom, dateTo);
    assert Lookup(p, ApiKey).Some? && Lookup(p, PageSize).Some?;
    forall k | k in p && k != ApiKey
      ensures p[k] != Text("")
    {
      assert Lookup(p, k) == ParamFor(k, apiKey, endpoint, query, category, source, dateFrom, dateTo);
    }
  }

  /** The fields of a NewsAPI article the feed displays. */
  datatype Article = Article(url: string, title: string, description: string, urlToImage: string,
                             publishedAt: string, sourceName: string)

  /**
    How the request ended: a 2xx reply whose body may lack `articles`, an
    error with a response status, a request that got no response, or any
    other exception.
   */
  datatype Reply =
    | Body(articles: Option<seq<Article>>)
    | ErrorStatus(status: int)
    | NoResponse
    | Unexpected

  /** The kinds of failure the catch block tells apart. */
  datatype Failure = RateLimited | InvalidKey | HttpFailure | NetworkFailure | UnexpectedFailure

  function Classify(r: Reply): (f: Failure)
    requires !r.Body?
    ensures f == RateLimited <==> r == ErrorStatus(429)
    ensures f == InvalidKey <==> r == ErrorStatus(401)
    ensures f == HttpFailure <==> r.ErrorStatus? && r.status != 429 && r.status != 401
    ensures f == NetworkFailure <==> r == NoResponse
    ensures f == UnexpectedFailure <==> r == Unexpected
  {
    match r
    case ErrorStatus(status) =>
      if status == 429 then RateLimited else if status == 401 then InvalidKey else HttpFailure
    case NoResponse => NetworkFailure
    case Unexpected => UnexpectedFailure
  }

  const RateLimitMessage := "API rate limit exceeded. Please try again later or upgrade your API plan."
  const InvalidKeyMessage := "API key is invalid or expired. Please check your API key."
  const HttpFailureMessage := "Failed to fetch news. Please try again in 5 minutes."
  const NetworkFailureMessage := "Network error. Please check your internet connection and try again in 5 minutes."
  const UnexpectedFailureMessage := "An unexpected error occurred. Please try again in 5 minutes."

  /** The message shown for each kind of failure. */
  function ErrorMessage(f: Failure): string
  {
    match f
    case RateLimited => RateLimitMessage
    case InvalidKey => InvalidKeyMessage
    case HttpFailure => HttpFailureMessage
    case NetworkFailure => NetworkFailureMessage
    case UnexpectedFailure => UnexpectedFailureMessage
  }

  /** Every failure but the rate limit starts the timed cooldown; the rate limit trips its own sticky gate. */
  predicate StartsCooldown(f: Failure)
  {
    f != RateLimited
  }

  /** The message shown identifies the failure: no two kinds share one. */
  lemma ErrorMessagesDistinct(f: Failure, g: Failure)
    ensures ErrorMessage(f) == ErrorMessage(g) ==> f == g
  {
    if f != g {
      assert |ErrorMessage(f)| != |ErrorMessage(g)|;
    }
  }
}
