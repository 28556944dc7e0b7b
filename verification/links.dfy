/** The `fetch_page_links` tool of the FastMCP server: the same guards and size limits as a
    page fetch, then the page's links that are absolute or site-relative, at most 100 listed,
    with the full count reported. */
module Links {
  import opened Wrappers
  import opened Text
  import opened Settings
  import opened UrlSafety
  import opened Sanitize
  import opened Http

  const MaxListedLinks := 100

  /** A link worth listing: non-empty and starting with `http://`, `https://` or `/`. */
  predicate IsListedLink(href: string) {
    href != [] && (StartsWith(href, "http://") || StartsWith(href, "https://") || StartsWith(href, "/"))
  }

  /** The links kept from the page's `href` values, in page order. */
  function FilterLinks(hrefs: seq<string>): (r: seq<string>)
    ensures |r| <= |hrefs|
    ensures forall k :: 0 <= k < |r| ==> IsListedLink(r[k])
    decreases |hrefs|
  {
    if hrefs == [] then []
    else (if IsListedLink(hrefs[0]) then [hrefs[0]] else []) + FilterLinks(hrefs[1..])
  }

  /** Filtering a page split in two is filtering each part: page order is kept. */
  lemma {:induction false} FilterLinksConcat(a: seq<string>, b: seq<string>)
    ensures FilterLinks(a + b) == FilterLinks(a) + FilterLinks(b)
    decreases |a|
  {
    if a == [] {
      assert a + b == b;
    } else {
      assert (a + b)[0] == a[0];
      assert (a + b)[1..] == a[1..] + b;
      FilterLinksConcat(a[1..], b);
    }
  }

  /** The kept links are exactly the page's links that qualify. */
  lemma {:induction false} FilterLinksMembers(hrefs: seq<string>, l: string)
    ensures l in FilterLinks(hrefs) <==> l in hrefs && IsListedLink(l)
    decreases |hrefs|
  {
    if hrefs != [] {
      FilterLinksMembers(hrefs[1..], l);
      assert hrefs == [hrefs[0]] + hrefs[1..];
    }
  }

  /** What the tool reports on success. */
  datatype Listing = Listing(url: string, total: nat, shown: seq<string>)

  datatype LinksError =
    | InvalidUrl                     // sanitize_url rejected the input
    | Blocked                        // is_safe_url refused the URL
    | PageTooLarge(header: string)   // the declared Content-Length is over the limit
    | ContentTooLarge                // the streamed text passed the limit
    | Unfetchable                    // requests.RequestException, HTTP 4xx/5xx included
    | Unprocessable                  // any other exception: bad Content-Length, undecodable text,
                                     // or another failure while streaming

  /** `fetch_page_links(url)`, with the error texts kept apart from the listing: the URL is
      sanitized first, and an empty result is refused before anything else. */
  function PageLinks(cfg: Config, web: Web, url: string): (r: Result<Listing, LinksError>)
    ensures r == Failure(InvalidUrl) <==> SanitizeUrl(url) == []
    ensures r.Success? ==> r.value.url == SanitizeUrl(url) && |r.value.shown| <= MaxListedLinks
  {
    var clean := SanitizeUrl(url);
    if clean == [] then Failure(InvalidUrl) else ListPage(cfg, web, clean)
  }

  /** The links of the page at an already sanitized URL. */
  function ListPage(cfg: Config, web: Web, url: string): (r: Result<Listing, LinksError>)
    ensures r != Failure(InvalidUrl)
    ensures r == Failure(Blocked) <==> !IsSafeUrl(web.dns, url)
    ensures r.Success? ==> r.value.url == url && |r.value.shown| <= MaxListedLinks
  {
    if !IsSafeUrl(web.dns, url) then Failure(Blocked) else ListReply(cfg, url, web.get(url), web.hrefs)
  }

  /** The `try` block of `fetch_page_links`, once the URL was found safe. */
  function ListReply(cfg: Config, url: string, reply: HttpReply, hrefs: string -> seq<string>): (r: Result<Listing, LinksError>)
    ensures r != Failure(InvalidUrl) && r != Failure(Blocked)
    ensures r.Success? ==> r.value.url == url && |r.value.shown| <= MaxListedLinks
  {
    match reply
    case Unreachable => Failure(Unfetchable)
    case Reply(status, header, chunks) =>
      if IsHttpError(status) then Failure(Unfetchable)
      else
        match CheckDeclaredLength(header, cfg.maxResponseSize)
        case NotANumber => Failure(Unprocessable)
        case OverLimit => Failure(PageTooLarge(header.value))
        case WithinLimit =>
          match ReadBody(cfg.maxResponseSize, chunks)
          case TooLarge => Failure(ContentTooLarge)
          case DecodeFailed => Failure(Unprocessable)
          case StreamFailed => Failure(Unfetchable)
          case OtherFailure => Failure(Unprocessable)
          case Body(html) => Success(Listed(url, FilterLinks(hrefs(html))))
  }

  /** The first 100 of the qualifying links, with their full count. */
  function Listed(url: string, valid: seq<string>): (r: Listing)
    ensures r.url == url && r.total == |valid| && r.shown <= valid
    ensures |r.shown| == if |valid| <= MaxListedLinks then |valid| else MaxListedLinks
  {
    Listing(url, |valid|, if |valid| <= MaxListedLinks then valid else valid[..MaxListedLinks])
  }

  function ErrorText(e: LinksError): string {
    match e
    case InvalidUrl => "Error: Invalid URL format"
    case Blocked => "Error: URL not allowed for security reasons"
    case PageTooLarge(h) => "Error: Page too large (" + h + " bytes)"
    case ContentTooLarge => "Error: Page content too large"
    case Unfetchable => "Error: Unable to fetch page"
    case Unprocessable => "Error: Unable to process page"
  }

  /** The success text: a header with the full count, then one `- link` line per listed link. */
  function RenderListing(l: Listing): string {
    "Links found on " + l.url + " (" + IntToString(l.total) + " total, showing first 100):\n\n"
      + Join("\n", seq(|l.shown|, k requires 0 <= k < |l.shown| => "- " + l.shown[k]))
  }

  function FetchPageLinks(cfg: Config, web: Web, url: string): string {
    match PageLinks(cfg, web, url)
    case Success(l) => RenderListing(l)
    case Failure(e) => ErrorText(e)
  }

  /** For a page that streams as plain data within the limits, the listing shows the first 100
      qualifying links in page order and reports how many qualify in all. */
  lemma ListingOfPage(cfg: Config, url: string, hrefs: string -> seq<string>, status: int,
                      header: Option<string>, chunks: seq<Chunk>)
    requires !IsHttpError(status)
    requires CheckDeclaredLength(header, cfg.maxResponseSize) == WithinLimit
    requires AllData(chunks) && |Joined(chunks)| <= cfg.maxResponseSize
    ensures ListReply(cfg, url, Reply(status, header, chunks), hrefs) ==
      Success(Listed(url, FilterLinks(hrefs(Joined(chunks)))))
  {
    ReadAllData(cfg.maxResponseSize, chunks);
  }

  /** An exception other than a request or decoding error raised while streaming, such as an
      unknown charset, gives "Unable to process page", whatever the stream would have delivered
      after it; the data read before it stays within the limit. */
  lemma FailedStreamUnprocessable(cfg: Config, url: string, hrefs: string -> seq<string>, status: int,
                                  header: Option<string>, run: seq<Chunk>, rest: seq<Chunk>)
    requires !IsHttpError(status)
    requires CheckDeclaredLength(header, cfg.maxResponseSize) == WithinLimit
    requires AllData(run) && |Joined(run)| <= cfg.maxResponseSize
    ensures ListReply(cfg, url, Reply(status, header, run + [Failed] + rest), hrefs) == Failure(Unprocessable)
  {
    FailureAfterData(cfg.maxResponseSize, run, Failed, rest);
  }

  /** A Content-Length of more than `MaxStrDigits` digits makes `int()` raise: the page is
      refused as unprocessable, before any chunk is read. */
  lemma OverlongLengthUnprocessable(cfg: Config, url: string, hrefs: string -> seq<string>,
                                    status: int, n: int, chunks: seq<Chunk>)
    requires !IsHttpError(status)
    requires |NatToString(if n < 0 then -n else n)| > MaxStrDigits
    ensures ListReply(cfg, url, Reply(status, Some(IntToString(n)), chunks), hrefs) == Failure(Unprocessable)
  {
    DeclaredLengthOfNumber(n, cfg.maxResponseSize);
  }

  /** A Content-Length padded with a U+001C to U+001F separator makes `int()` raise: the page is
      refused as unprocessable, before any chunk is read. */
  lemma SeparatorLengthUnprocessable(cfg: Config, url: string, hrefs: string -> seq<string>,
                                     status: int, header: string, chunks: seq<Chunk>)
    requires !IsHttpError(status)
    requires header != [] && (28 <= header[0] as int <= 31 || 28 <= header[|header| - 1] as int <= 31)
    ensures ListReply(cfg, url, Reply(status, Some(header), chunks), hrefs) == Failure(Unprocessable)
  {
    SeparatorLengthNotANumber(header, cfg.maxResponseSize);
  }
}
