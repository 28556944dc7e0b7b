/** The `brave_search_and_fetch` tool of the FastMCP server: sanitize the query, search for
    twice the wanted number of results, then walk the results in order, fetching the page of
    each one that has a URL until `max_results` pages were fetched, and cap the whole text. */
module SearchAndFetch {
  import opened Wrappers
  import opened Text
  import opened Settings
  import opened RateLimiter
  import opened SearchClient
  import opened Sanitize
  import opened Http
  import opened Fetcher

  const MinResults := 1
  const MaxResults := 10
  const DefaultMaxResults := 3
  const ResultTruncatedMarker := "... [Truncated]"
  const ResponseTruncatedMarker := "... [Response truncated]"

  /** Results with a URL are fetched; the others are listed without content. */
  function Fetches(h: Hit): nat {
    if h.url != [] then 1 else 0
  }

  /** How many of `hits` have a URL. */
  function CountUrls(hits: seq<Hit>): (r: nat)
    ensures r <= |hits|
    decreases |hits|
  {
    if hits == [] then 0 else Fetches(hits[0]) + CountUrls(hits[1..])
  }

  /** The five lines for one result, numbered after the `n` pages fetched before it. Content is
      cut to `cap` characters and marked. */
  function Block(n: nat, h: Hit, content: string -> string, cap: int): (r: seq<string>)
    ensures |r| == 5
  {
    [ IntToString(n + 1) + ". " + h.title,
      "   URL: " + h.url,
      "   Description: " + h.description,
      if h.url != [] then "   Content: " + Truncate(content(h.url), cap, ResultTruncatedMarker)
      else "   Content: No URL available",
      "" ]
  }

  /** The result blocks of the newer server, content cut to `cap`. */
  function Layout(content: string -> string, cap: int): (nat, Hit) -> seq<string> {
    (i: nat, h: Hit) => Block(i, h, content, cap)
  }

  /** How many results the loop takes, `n` pages already fetched, before it breaks. */
  function Consumed(m: int, hits: seq<Hit>, n: nat): (r: nat)
    ensures r <= |hits|
    decreases |hits|
  {
    if hits == [] || n >= m then 0 else 1 + Consumed(m, hits[1..], n + Fetches(hits[0]))
  }

  /** The result blocks of the loop, `n` pages already fetched: one per result taken, drawn by
      `render` from the pages fetched so far and the result. */
  function Entries(m: int, hits: seq<Hit>, n: nat, render: (nat, Hit) -> seq<string>): (r: seq<seq<string>>)
    ensures |r| == Consumed(m, hits, n)
    decreases |hits|
  {
    if hits == [] || n >= m then []
    else [render(n, hits[0])] + Entries(m, hits[1..], n + Fetches(hits[0]), render)
  }

  /** The blocks' lines, in order. */
  function Flatten(blocks: seq<seq<string>>): seq<string>
    decreases |blocks|
  {
    if blocks == [] then [] else blocks[0] + Flatten(blocks[1..])
  }

  /** The loop stops at the first result by which `m` pages were fetched, or at the end: every
      result it takes was reached with fewer than `m` pages fetched, it never fetches more than
      `m`, and it leaves results unread only once `m` pages were fetched. */
  lemma {:induction false} ConsumedStops(m: int, hits: seq<Hit>, n: nat)
    ensures var c := Consumed(m, hits, n);
      && (forall k :: 0 <= k < c ==> n + CountUrls(hits[..k]) < m)
      && (n <= m ==> n + CountUrls(hits[..c]) <= m)
      && (c < |hits| ==> n + CountUrls(hits[..c]) >= m)
    decreases |hits|
  {
    var c := Consumed(m, hits, n);
    if hits == [] || n >= m {
      assert hits[..c] == [];
    } else {
      var n' := n + Fetches(hits[0]);
      ConsumedStops(m, hits[1..], n');
      forall k | 0 <= k < c ensures n + CountUrls(hits[..k]) < m {
        if k > 0 {
          assert hits[..k][1..] == hits[1..][..k - 1];
        }
      }
      assert hits[..c][1..] == hits[1..][..c - 1];
    }
  }

  /** Result `k` of those taken is shown as the block numbered after the pages fetched for the
      results before it. */
  lemma {:induction false} EntryBlock(m: int, hits: seq<Hit>, n: nat, render: (nat, Hit) -> seq<string>, k: nat)
    requires k < Consumed(m, hits, n)
    ensures Entries(m, hits, n, render)[k] == render(n + CountUrls(hits[..k]), hits[k])
    decreases |hits|
  {
    if k > 0 {
      EntryBlock(m, hits[1..], n + Fetches(hits[0]), render, k - 1);
      assert hits[..k][1..] == hits[1..][..k - 1];
    } else {
      assert hits[..0] == [];
    }
  }

  lemma {:induction false} CountUrlsStep(hits: seq<Hit>, k: nat)
    requires k < |hits|
    ensures CountUrls(hits[..k + 1]) == CountUrls(hits[..k]) + Fetches(hits[k])
    decreases k
  {
    if k == 0 {
      assert hits[..1][1..] == [];
      assert hits[..0] == [];
    } else {
      CountUrlsStep(hits[1..], k - 1);
      assert hits[..k + 1][1..] == hits[1..][..k];
      assert hits[..k][1..] == hits[1..][..k - 1];
    }
  }

  /** The numbering counts fetched pages, not results: a result without a URL shares its number
      with the result after it. */
  lemma SharedNumber(m: int, hits: seq<Hit>, content: string -> string, cap: int, k: nat)
    requires k + 1 < Consumed(m, hits, 0) && hits[k].url == []
    ensures var blocks := Entries(m, hits, 0, Layout(content, cap));
      && blocks[k] == Block(CountUrls(hits[..k]), hits[k], content, cap)
      && blocks[k + 1] == Block(CountUrls(hits[..k]), hits[k + 1], content, cap)
  {
    var render := Layout(content, cap);
    EntryBlock(m, hits, 0, render, k);
    EntryBlock(m, hits, 0, render, k + 1);
    CountUrlsStep(hits, k);
  }

  /** A fetched result's content line stays within its budget `cap`, plus its marker. */
  lemma BlockContentBudget(n: nat, h: Hit, content: string -> string, cap: int)
    requires h.url != [] && cap >= 0
    ensures |Block(n, h, content, cap)[3]| <= |"   Content: "| + cap + |ResultTruncatedMarker|
  {
    TruncateMeaning(content(h.url), cap, ResultTruncatedMarker);
  }

  /** Every fetched result of the report is shown within its budget, plus its marker; the
      report uses `cap = CONTENT_LENGTH_LIMIT // max_results`, which is not negative when the
      limit is not. */
  lemma ResultContentBudget(m: int, hits: seq<Hit>, content: string -> string, cap: int, k: nat)
    requires cap >= 0 && k < Consumed(m, hits, 0) && hits[k].url != []
    ensures Entries(m, hits, 0, Layout(content, cap))[k] == Block(CountUrls(hits[..k]), hits[k], content, cap)
    ensures |Block(CountUrls(hits[..k]), hits[k], content, cap)[3]| <=
      |"   Content: "| + cap + |ResultTruncatedMarker|
  {
    EntryBlock(m, hits, 0, Layout(content, cap), k);
    BlockContentBudget(CountUrls(hits[..k]), hits[k], content, cap);
  }

  /** What the loop knows after `i` results, `fetched` pages fetched and `parts` gathered. */
  predicate LoopState(m: int, hits: seq<Hit>, render: (nat, Hit) -> seq<string>, i: nat, fetched: nat,
                      parts: seq<string>)
  {
    && i <= |hits|
    && Flatten(Entries(m, hits, 0, render)) == parts + Flatten(Entries(m, hits[i..], fetched, render))
    && Consumed(m, hits, 0) == i + Consumed(m, hits[i..], fetched)
    && fetched == CountUrls(hits[..i])
  }

  /** One turn of the loop, fewer than `m` pages fetched: result `i` adds its block. */
  lemma TakeOne(m: int, hits: seq<Hit>, render: (nat, Hit) -> seq<string>, i: nat, fetched: nat,
                parts: seq<string>)
    requires LoopState(m, hits, render, i, fetched, parts) && i < |hits| && fetched < m
    ensures LoopState(m, hits, render, i + 1, fetched + Fetches(hits[i]), parts + render(fetched, hits[i]))
  {
    var h := hits[i];
    assert hits[i..][0] == h && hits[i..][1..] == hits[i + 1..];
    CountUrlsStep(hits, i);
    var block := render(fetched, h);
    var later := Entries(m, hits[i + 1..], fetched + Fetches(h), render);
    assert Entries(m, hits[i..], fetched, render) == [block] + later;
    assert Flatten([block] + later) == block + Flatten(later);
    assert parts + (block + Flatten(later)) == (parts + block) + Flatten(later);
  }

  /** The loop ends with every block gathered, once the results run out or `m` pages were
      fetched. */
  lemma LoopDone(m: int, hits: seq<Hit>, render: (nat, Hit) -> seq<string>, i: nat, fetched: nat,
                 parts: seq<string>)
    requires LoopState(m, hits, render, i, fetched, parts) && (i == |hits| || fetched >= m)
    ensures parts == Flatten(Entries(m, hits, 0, render))
    ensures fetched == CountUrls(hits[..Consumed(m, hits, 0)])
  {
    assert Entries(m, hits[i..], fetched, render) == [];
  }

  /** The loop of `brave_search_and_fetch` over the search results: `parts` gathers the lines it appends and
      `fetched` is `fetched_count`. */
  method CollectEntries(m: int, hits: seq<Hit>, render: (nat, Hit) -> seq<string>)
    returns (parts: seq<string>, fetched: nat)
    ensures parts == Flatten(Entries(m, hits, 0, render))
    ensures fetched == CountUrls(hits[..Consumed(m, hits, 0)])
  {
    parts := [];
    fetched := 0;
    var i := 0;
    assert hits[..0] == [] && hits[0..] == hits;
    while i < |hits| && fetched < m
      invariant LoopState(m, hits, render, i, fetched, parts)
      decreases |hits| - i
    {
      TakeOne(m, hits, render, i, fetched, parts);
      parts := parts + render(fetched, hits[i]);
      if hits[i].url != [] {
        fetched := fetched + 1;
      }
      i := i + 1;
    }
    LoopDone(m, hits, render, i, fetched, parts);
  }

  /** The text for a non-empty result list: a header, the result blocks, joined by newlines and
      cut to `limit` characters. */
  function Render(q: string, m: int, hits: seq<Hit>, content: string -> string, limit: int): (r: string)
    requires m >= 1
    ensures 0 <= limit ==> |r| <= limit + |ResponseTruncatedMarker|
  {
    var parts := ["Search Results for: " + q, Repeat('=', 50), ""] + Flatten(Entries(m, hits, 0, Layout(content, limit / m)));
    var text := Join("\n", parts);
    TruncateMeaning(text, limit, ResponseTruncatedMarker);
    Truncate(text, limit, ResponseTruncatedMarker)
  }

  /** The text once the search has answered: one fixed text for any search failure, a notice
      for no results, the rendered results otherwise. */
  function Answer(q: string, m: int, outcome: Result<seq<Hit>, SearchError>, content: string -> string,
                  limit: int): (r: string)
    requires m >= 1
    ensures outcome.Failure? ==> r == "Error: Search operation failed"
    ensures outcome == Success([]) ==> r == "No search results found for query: " + q
    ensures outcome.Success? && outcome.value != [] && 0 <= limit ==>
      |r| <= limit + |ResponseTruncatedMarker|
  {
    match outcome
    case Failure(_) => "Error: Search operation failed"
    case Success(hits) =>
      if hits == [] then "No search results found for query: " + q else Render(q, m, hits, content, limit)
  }

  /** What one call returns, with the limiter afterwards and the search request sent, if any. */
  datatype ToolCall = ToolCall(text: string, limiter: Limiter, request: Option<SearchRequest>)

  /** `brave_search_and_fetch(query, max_results)` entered at clock reading `tick.now`. Pages
      are fetched with `fetch_url_content` on the URLs exactly as the search returned them. */
  function BraveSearchAndFetch(cfg: Config, web: Web, l: Limiter, tick: Tick,
                               api: SearchRequest -> SearchReply, query: string, maxResults: int): (r: ToolCall)
    requires tick.lag >= 0.0
    ensures SanitizeQuery(query) == [] ==>
      r == ToolCall("Error: Invalid or empty search query", l, None)
    ensures SanitizeQuery(query) != [] && cfg.apiKey != [] ==>
      && r.request.Some? && r.request.value.query == SanitizeQuery(query)
      && r.request.value.count == 2 * Clamp(MinResults, MaxResults, maxResults)
    ensures cfg.apiKey == [] ==> r.request.None? && r.limiter == l
  {
    var q := SanitizeQuery(query);
    if q == [] then ToolCall("Error: Invalid or empty search query", l, None)
    else
      var m := Clamp(MinResults, MaxResults, maxResults);
      var call := BraveSearch(cfg, l, tick, api, q, m * 2);
      ToolCall(Answer(q, m, call.outcome, PageText(cfg, web), cfg.contentLengthLimit), call.limiter, call.request)
  }

  /** `fetch_url_content` as the function from URL to text the rendering uses. */
  function PageText(cfg: Config, web: Web): string -> string {
    u => FetchUrlContent(cfg, web, u)
  }

  /** Whatever went wrong in the search, the caller sees one fixed text, no details. */
  lemma SearchFailureHidden(cfg: Config, web: Web, l: Limiter, tick: Tick,
                            api: SearchRequest -> SearchReply, query: string, maxResults: int)
    requires tick.lag >= 0.0 && SanitizeQuery(query) != []
    requires BraveSearch(cfg, l, tick, api, SanitizeQuery(query),
                         2 * Clamp(MinResults, MaxResults, maxResults)).outcome.Failure?
    ensures BraveSearchAndFetch(cfg, web, l, tick, api, query, maxResults).text == "Error: Search operation failed"
  {
    var q := SanitizeQuery(query);
    var m := Clamp(MinResults, MaxResults, maxResults);
    var outcome := BraveSearch(cfg, l, tick, api, q, 2 * m).outcome;
    assert BraveSearchAndFetch(cfg, web, l, tick, api, query, maxResults).text ==
      Answer(q, m, outcome, PageText(cfg, web), cfg.contentLengthLimit);
  }
}
