/** The older low-level MCP server: the same three tools without URL screening, size limits,
    query sanitizing or rate limiting. `handle_call_tool` turns every exception raised inside its
    `try` into a text reply and lets only the missing-arguments error escape. */
module LegacyServer {
  import opened Wrappers
  import opened Text
  import opened Settings
  import opened SearchClient
  import opened SearchAndFetch
  import Http

  /** The outcome of `requests.get(url, timeout=...)` without streaming. */
  datatype Response =
    | Raised(message: string)          // a requests.RequestException and its `str(e)`
    | Page(status: int, text: string)  // `resp.status_code` and `resp.text`

  /** The world as the legacy server sees it. `statusError(url, status)` is the text of the
      `HTTPError` that `raise_for_status` raises; `allText` is BeautifulSoup's `get_text` without
      removing script and style elements first, `visibleText` the same after removing them. */
  datatype LegacyWeb = LegacyWeb(
    get: string -> Response,
    statusError: (string, int) -> string,
    allText: string -> string,
    visibleText: string -> string,
    hrefs: string -> seq<string>
  )

  /** `requests.get` followed by `raise_for_status()`: the page text, or the exception text. */
  function Get(web: LegacyWeb, url: string): (r: Result<string, string>)
    ensures web.get(url).Raised? ==> r == Failure(web.get(url).message)
    ensures web.get(url).Page? ==>
      (r.Success? <==> !Http.IsHttpError(web.get(url).status))
  {
    match web.get(url)
    case Raised(message) => Failure(message)
    case Page(status, text) =>
      if Http.IsHttpError(status) then Failure(web.statusError(url, status)) else Success(text)
  }

  const FetchErrorPrefix := "Error fetching content: "

  /** The legacy `fetch_url_content`: every failure becomes a text, nothing is raised. */
  function FetchUrlContent(limit: int, web: LegacyWeb, url: string): (r: string)
    ensures Get(web, url).Failure? ==> r == FetchErrorPrefix + Get(web, url).error
    ensures Get(web, url).Success? && 0 <= limit ==>
      |r| <= limit + |"... [Content truncated]"|
    ensures Get(web, url).Success? && |web.visibleText(Get(web, url).value)| <= limit ==>
      r == web.visibleText(Get(web, url).value)
    ensures Get(web, url).Success? && 0 <= limit < |web.visibleText(Get(web, url).value)| ==>
      r == web.visibleText(Get(web, url).value)[..limit] + "... [Content truncated]"
  {
    match Get(web, url)
    case Failure(message) => FetchErrorPrefix + message
    case Success(html) =>
      var text := web.visibleText(html);
      TruncateMeaning(text, limit, "... [Content truncated]");
      Truncate(text, limit, "... [Content truncated]")
  }

  /** The legacy search API: the service, and the text of whatever exception a reply to a
      request causes; the text of an HTTP or connection error names the request's URL with its
      query string. */
  datatype LegacyApi = LegacyApi(answer: SearchRequest -> SearchReply,
                                 describe: (SearchRequest, SearchReply) -> string)

  const MissingKeyMessage := "BRAVE_API_KEY environment variable is required"
  const SearchFailedPrefix := "Brave search failed: "

  /** The legacy `brave_search`: the missing key is reported as such, every other failure is
      re-raised as a plain exception whose text starts with "Brave search failed: ". A
      successful response without a `web` section, or whose section has no `results`, is an
      empty result list. */
  function BraveSearch(cfg: Config, api: LegacyApi, query: string, count: int): (r: Result<seq<Hit>, string>)
    ensures cfg.apiKey == [] ==> r == Failure(MissingKeyMessage)
    ensures cfg.apiKey != [] && r.Failure? ==>
      r.error == SearchFailedPrefix + api.describe(RequestFor(cfg, query, count), api.answer(RequestFor(cfg, query, count)))
    ensures cfg.apiKey != [] ==>
      var reply := api.answer(RequestFor(cfg, query, count));
      (reply.Answered? && !Http.IsHttpError(reply.status) && reply.payload.Document? &&
       (reply.payload.web.None? || reply.payload.web.value.results.None?)) ==> r == Success([])
  {
    if cfg.apiKey == [] then Failure(MissingKeyMessage)
    else
      var request := RequestFor(cfg, query, count);
      var reply := api.answer(request);
      var outcome :=
        match reply
        case NoConnection => Failure(NetworkError)
        case Answered(status, payload) =>
          if Http.IsHttpError(status) then Failure(HttpFailure(status)) else Extract(payload);
      match outcome
      case Failure(_) => Failure(SearchFailedPrefix + api.describe(request, reply))
      case Success(hits) => Success(hits)
  }

  /** The six lines for one result, numbered after the `n` pages fetched before it. */
  function LegacyBlock(n: nat, h: Hit, content: string -> string): (r: seq<string>)
    ensures |r| == 6
  {
    [ "\n" + IntToString(n + 1) + ". " + h.title,
      "URL: " + h.url,
      "Description: " + h.description,
      Repeat('-', 40),
      if h.url != [] then "Content:\n" + content(h.url) else "No URL available for content fetching",
      Repeat('=', 50) ]
  }

  /** The legacy result page: no per-result cap and no cap on the whole text. */
  function LegacyRender(q: string, m: int, hits: seq<Hit>, content: string -> string): string {
    var header := "Search Results for: " + q + "\n" + Repeat('=', 50) + "\n";
    Join("\n", [header] + Flatten(Entries(m, hits, 0, (i: nat, h: Hit) => LegacyBlock(i, h, content))))
  }

  /** The arguments of a tool call: the string-valued ones, and `max_results` when given. */
  datatype Arguments = Arguments(text: map<string, string>, maxResults: Option<int>)

  predicate IsEmpty(args: Arguments) {
    args.text == map[] && args.maxResults.None?
  }

  /** `arguments.get(key)` tested with `if not ...`: absent and empty values count as missing. */
  function Given(args: Arguments, key: string): (r: Option<string>)
    ensures r.Some? <==> key in args.text && args.text[key] != []
    ensures r.Some? ==> r.value == args.text[key]
  {
    if key in args.text && args.text[key] != [] then Some(args.text[key]) else None
  }

  /** What `handle_call_tool` hands back: a text reply, or the exception it lets escape. */
  datatype ToolResult = Reply(text: string) | Escaped(message: string)

  function HandleCallTool(cfg: Config, web: LegacyWeb, api: LegacyApi, name: string,
                          arguments: Option<Arguments>): (r: ToolResult)
    ensures r.Escaped? <==> arguments.None? || IsEmpty(arguments.value)
    ensures r.Escaped? ==> r.message == "Missing arguments"
  {
    if arguments.None? || IsEmpty(arguments.value) then Escaped("Missing arguments")
    else Reply(CallTool(cfg, web, api, name, arguments.value))
  }

  /** The body of the `try`, with its two handlers: a request exception becomes
      "Network error: ...", any other exception "Error: ...". */
  function CallTool(cfg: Config, web: LegacyWeb, api: LegacyApi, name: string, args: Arguments): string {
    if name == "fetch_url_text" then
      match Given(args, "url")
      case None => "Error: Missing URL"
      case Some(url) =>
        match Get(web, url)
        case Failure(message) => "Network error: " + message
        case Success(html) => "Text content from " + url + ":\n\n" + web.allText(html)
    else if name == "fetch_page_links" then
      match Given(args, "url")
      case None => "Error: Missing URL"
      case Some(url) =>
        match Get(web, url)
        case Failure(message) => "Network error: " + message
        case Success(html) =>
          var links := web.hrefs(html);
          "Links found on " + url + ":\n\n" + Join("\n", seq(|links|, k requires 0 <= k < |links| => "- " + links[k]))
    else if name == "brave_search_and_fetch" then
      match Given(args, "query")
      case None => "Error: Missing search query"
      case Some(query) => SearchTool(cfg, web, api, query, args.maxResults.GetOr(DefaultMaxResults))
    else "Error: Unknown tool: " + name
  }

  /** The `brave_search_and_fetch` branch: the query is used as given and `max_results` is not
      clamped. */
  function SearchTool(cfg: Config, web: LegacyWeb, api: LegacyApi, query: string, m: int): (r: string)
    ensures BraveSearch(cfg, api, query, m * 2).Failure? ==>
      r == "Error: " + BraveSearch(cfg, api, query, m * 2).error
    ensures BraveSearch(cfg, api, query, m * 2) == Success([]) ==>
      r == "No search results found for query: " + query
  {
    match BraveSearch(cfg, api, query, m * 2)
    case Failure(message) => "Error: " + message
    case Success(hits) =>
      if hits == [] then "No search results found for query: " + query
      else LegacyRender(query, m, hits, u => FetchUrlContent(cfg.contentLengthLimit, web, u))
  }

  /** A successful legacy search answers every result of the response, in order, with its
      fields. */
  lemma LegacyResultsInOrder(cfg: Config, api: LegacyApi, query: string, count: int, status: int,
                             raw: seq<RawResult>, k: nat)
    requires cfg.apiKey != [] && !Http.IsHttpError(status)
    requires api.answer(RequestFor(cfg, query, count)) == Answered(status, Document(Some(WebSection(Some(raw)))))
    requires (forall j :: 0 <= j < |raw| ==> raw[j].Entry?) && k < |raw|
    ensures BraveSearch(cfg, api, query, count).Success?
    ensures |BraveSearch(cfg, api, query, count).value| == |raw|
    ensures BraveSearch(cfg, api, query, count).value[k] ==
      Hit(raw[k].title.GetOr(""), raw[k].url.GetOr(""), raw[k].description.GetOr(""))
  {
    RecordsFields(raw, k);
  }

  /** The legacy loop numbers and stops like the newer one: result `k` of those taken is drawn
      after the pages fetched before it, and no more than `m` pages are fetched. */
  lemma LegacyLoop(m: int, hits: seq<Hit>, content: string -> string, k: nat)
    requires k < Consumed(m, hits, 0)
    ensures Entries(m, hits, 0, (i: nat, h: Hit) => LegacyBlock(i, h, content))[k] ==
      LegacyBlock(CountUrls(hits[..k]), hits[k], content)
    ensures CountUrls(hits[..k]) < m
    ensures CountUrls(hits[..Consumed(m, hits, 0)]) <= m
  {
    EntryBlock(m, hits, 0, (i: nat, h: Hit) => LegacyBlock(i, h, content), k);
    ConsumedStops(m, hits, 0);
  }

  /** Missing inputs are answered with the handler's "Error: ..." text, not raised. */
  lemma MissingInputsAnswered(cfg: Config, web: LegacyWeb, api: LegacyApi, name: string, args: Arguments)
    requires !IsEmpty(args)
    ensures (name == "fetch_url_text" || name == "fetch_page_links") && Given(args, "url").None? ==>
      HandleCallTool(cfg, web, api, name, Some(args)) == Reply("Error: Missing URL")
    ensures name == "brave_search_and_fetch" && Given(args, "query").None? ==>
      HandleCallTool(cfg, web, api, name, Some(args)) == Reply("Error: Missing search query")
  {
  }

  /** The legacy `fetch_url_text` screens nothing: whatever URL it is given is requested, and the
      reply is `get_text` of the page, without removing script and style elements, uncut. */
  lemma FetchesAnyUrl(cfg: Config, web: LegacyWeb, api: LegacyApi, args: Arguments, url: string, html: string)
    requires Given(args, "url") == Some(url) && web.get(url) == Page(200, html)
    ensures HandleCallTool(cfg, web, api, "fetch_url_text", Some(args)) ==
      Reply("Text content from " + url + ":\n\n" + web.allText(html))
  {
  }

  /** A tool name the server does not know is answered, not raised, once arguments are given. */
  lemma UnknownToolAnswered(cfg: Config, web: LegacyWeb, api: LegacyApi, name: string, args: Arguments)
    requires !IsEmpty(args)
    requires name != "fetch_url_text" && name != "fetch_page_links" && name != "brave_search_and_fetch"
    ensures HandleCallTool(cfg, web, api, name, Some(args)) == Reply("Error: Unknown tool: " + name)
  {
  }
}
