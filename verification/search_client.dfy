/** `brave_search`: refuse to run without an API key, pass the rate limiter, call the Brave web
    search endpoint, and turn its JSON answer into title/url/description records, mapping every
    failure to one of a fixed set of error messages. The API and the clock are parameters. */
module SearchClient {
  import opened Wrappers
  import opened Settings
  import opened RateLimiter
  import opened Http

  const Endpoint := "https://api.search.brave.com/res/v1/web/search"

  /** The query parameters and the subscription token sent with one search. */
  datatype SearchRequest = SearchRequest(
    endpoint: string,
    token: string,        // the X-Subscription-Token header
    query: string,        // q
    count: int,
    searchLang: string,
    country: string,
    safesearch: string
  )

  function RequestFor(cfg: Config, query: string, count: int): (r: SearchRequest)
    ensures r.endpoint == Endpoint && r.token == cfg.apiKey && r.query == query && r.count == count
  {
    SearchRequest(Endpoint, cfg.apiKey, query, count, "en", "US", "moderate")
  }

  /** One element of `data['web']['results']`; a missing key is `None`. */
  datatype RawResult =
    | Entry(title: Option<string>, url: Option<string>, description: Option<string>)
    | NotAnObject          // an element without `.get`: AttributeError

  /** The parts of the decoded JSON document the client looks at. */
  datatype WebSection = WebSection(results: Option<seq<RawResult>>)

  datatype Payload =
    | NotJson                                // `response.json()` raised
    | Document(web: Option<WebSection>)      // a JSON object, with or without a `web` key

  /** What `requests.get` produced for the search request. */
  datatype SearchReply =
    | NoConnection                           // requests.RequestException before a response
    | Answered(status: int, payload: Payload)

  /** One search result as the tools see it. */
  datatype Hit = Hit(title: string, url: string, description: string)

  datatype SearchError =
    | MissingApiKey     // ValueError, raised before the limiter or the network is touched
    | Rejected          // HTTP 422
    | RateLimited       // HTTP 429
    | Unavailable       // any other HTTP error status
    | NetworkError      // no response, or a body that is not JSON
    | Unexpected        // a result that is not an object

  function ErrorMessage(e: SearchError): string {
    match e
    case MissingApiKey => "BRAVE_API_KEY environment variable is required"
    case Rejected => "Search request was rejected - please check your query"
    case RateLimited => "Rate limit exceeded - please wait before making another request"
    case Unavailable => "Search service temporarily unavailable"
    case NetworkError => "Network error occurred during search"
    case Unexpected => "An unexpected error occurred during search"
  }

  function HttpFailure(status: int): (r: SearchError)
    ensures r in {Rejected, RateLimited, Unavailable}
    ensures r == Rejected <==> status == 422
    ensures r == RateLimited <==> status == 429
  {
    if status == 422 then Rejected else if status == 429 then RateLimited else Unavailable
  }

  /** A record for every result, in order, each missing field read as "". */
  function Records(raw: seq<RawResult>): (r: Option<seq<Hit>>)
    ensures r.Some? <==> forall k :: 0 <= k < |raw| ==> raw[k].Entry?
    ensures r.Some? ==> |r.value| == |raw|
    decreases |raw|
  {
    if raw == [] then Some([])
    else if raw[0].NotAnObject? then None
    else
      match Records(raw[1..])
      case None => None
      case Some(rest) =>
        Some([Hit(raw[0].title.GetOr(""), raw[0].url.GetOr(""), raw[0].description.GetOr(""))] + rest)
  }

  /** Each record carries its result's fields, "" standing in for a missing one. */
  lemma {:induction false} RecordsFields(raw: seq<RawResult>, k: nat)
    requires Records(raw).Some? && k < |raw|
    ensures Records(raw).value[k] ==
      Hit(raw[k].title.GetOr(""), raw[k].url.GetOr(""), raw[k].description.GetOr(""))
    decreases |raw|
  {
    if k > 0 {
      RecordsFields(raw[1..], k - 1);
    }
  }

  /** The results of a successful response; none when `web` or `results` is missing. */
  function Extract(payload: Payload): (r: Result<seq<Hit>, SearchError>)
    ensures payload.NotJson? ==> r == Failure(NetworkError)
    ensures r.Failure? ==> r.error in {NetworkError, Unexpected}
    ensures payload.Document? && (payload.web.None? || payload.web.value.results.None?) ==>
      r == Success([])
  {
    match payload
    case NotJson => Failure(NetworkError)
    case Document(web) =>
      if web.None? || web.value.results.None? then Success([])
      else
        match Records(web.value.results.value)
        case None => Failure(Unexpected)
        case Some(hits) => Success(hits)
  }

  /** The outcome of one call: the results or the error, the limiter afterwards, and the
      request sent, if any. */
  datatype SearchCall = SearchCall(outcome: Result<seq<Hit>, SearchError>, limiter: Limiter,
                                   request: Option<SearchRequest>)

  /** `brave_search(query, count)` entered at clock reading `tick.now`. */
  function BraveSearch(cfg: Config, l: Limiter, tick: Tick, api: SearchRequest -> SearchReply,
                       query: string, count: int): (r: SearchCall)
    requires tick.lag >= 0.0
    ensures r.outcome == Failure(MissingApiKey) <==> cfg.apiKey == []
    ensures cfg.apiKey == [] ==> r.limiter == l && r.request.None?
    ensures cfg.apiKey != [] ==>
      && r.request == Some(RequestFor(cfg, query, count))
      && r.limiter.last >= l.last + MinRequestInterval(cfg)
  {
    if cfg.apiKey == [] then SearchCall(Failure(MissingApiKey), l, None)
    else
      var next := Throttle(l, MinRequestInterval(cfg), tick.now, tick.lag);
      var request := RequestFor(cfg, query, count);
      var outcome :=
        match api(request)
        case NoConnection => Failure(NetworkError)
        case Answered(status, payload) =>
          if IsHttpError(status) then Failure(HttpFailure(status)) else Extract(payload);
      SearchCall(outcome, next, Some(request))
  }

  /** A successful search answers every result of the response, in order, with its fields. */
  lemma SearchResultsInOrder(cfg: Config, l: Limiter, tick: Tick, api: SearchRequest -> SearchReply,
                             query: string, count: int, status: int, raw: seq<RawResult>, k: nat)
    requires tick.lag >= 0.0 && cfg.apiKey != []
    requires api(RequestFor(cfg, query, count)) == Answered(status, Document(Some(WebSection(Some(raw)))))
    requires !IsHttpError(status) && (forall j :: 0 <= j < |raw| ==> raw[j].Entry?) && k < |raw|
    ensures BraveSearch(cfg, l, tick, api, query, count).outcome.Success?
    ensures |BraveSearch(cfg, l, tick, api, query, count).outcome.value| == |raw|
    ensures BraveSearch(cfg, l, tick, api, query, count).outcome.value[k] ==
      Hit(raw[k].title.GetOr(""), raw[k].url.GetOr(""), raw[k].description.GetOr(""))
  {
    RecordsFields(raw, k);
  }

  /** An HTTP error status is reported by its own message, whatever the body says. */
  lemma HttpErrorsByStatus(cfg: Config, l: Limiter, tick: Tick, api: SearchRequest -> SearchReply,
                           query: string, count: int, status: int, payload: Payload)
    requires tick.lag >= 0.0 && cfg.apiKey != []
    requires api(RequestFor(cfg, query, count)) == Answered(status, payload) && IsHttpError(status)
    ensures BraveSearch(cfg, l, tick, api, query, count).outcome == Failure(HttpFailure(status))
    ensures BraveSearch(cfg, l, tick, api, query, count).request == Some(RequestFor(cfg, query, count))
  {
  }
}
