/** `fetch_url_content` and the `fetch_url_text` tool of the FastMCP server: guard the URL,
    refuse an oversized body before and while reading it, extract the visible text and cut it
    to the configured length. */
module Fetcher {
  import opened Wrappers
  import opened Text
  import opened Settings
  import opened UrlSafety
  import opened Sanitize
  import opened Http

  const ContentTruncatedMarker := "... [Content truncated]"

  /** Why `fetch_url_content` returned an error text instead of page text. */
  datatype FetchError =
    | Blocked                        // is_safe_url refused the URL; no request was made
    | Unfetchable                    // requests.RequestException, HTTP 4xx/5xx included
    | Unexpected                     // any other exception: an unparsable Content-Length, or
                                     // one raised while streaming, such as an unknown charset
    | DeclaredTooLarge(header: string)
    | ExceededLimit
    | NotText

  /** `fetch_url_content(url)`, with the error texts kept apart from page text. */
  function Fetch(cfg: Config, web: Web, url: string): (r: Result<string, FetchError>)
    ensures r == Failure(Blocked) <==> !IsSafeUrl(web.dns, url)
    ensures r.Success? && 0 <= cfg.contentLengthLimit ==>
      |r.value| <= cfg.contentLengthLimit + |ContentTruncatedMarker|
  {
    if !IsSafeUrl(web.dns, url) then Failure(Blocked) else Retrieve(cfg, web.get(url), web.visibleText)
  }

  /** The `try` block of `fetch_url_content`, once the URL was found safe. */
  function Retrieve(cfg: Config, reply: HttpReply, visibleText: string -> string): (r: Result<string, FetchError>)
    ensures r != Failure(Blocked)
    ensures r.Success? && 0 <= cfg.contentLengthLimit ==>
      |r.value| <= cfg.contentLengthLimit + |ContentTruncatedMarker|
  {
    match reply
    case Unreachable => Failure(Unfetchable)
    case Reply(status, header, chunks) =>
      if IsHttpError(status) then Failure(Unfetchable)
      else
        match CheckDeclaredLength(header, cfg.maxResponseSize)
        case NotANumber => Failure(Unexpected)
        case OverLimit => Failure(DeclaredTooLarge(header.value))
        case WithinLimit =>
          match ReadBody(cfg.maxResponseSize, chunks)
          case TooLarge => Failure(ExceededLimit)
          case DecodeFailed => Failure(NotText)
          case StreamFailed => Failure(Unfetchable)
          case OtherFailure => Failure(Unexpected)
          case Body(html) =>
            var text := visibleText(html);
            TruncateMeaning(text, cfg.contentLengthLimit, ContentTruncatedMarker);
            Success(Truncate(text, cfg.contentLengthLimit, ContentTruncatedMarker))
  }

  /** The fixed error texts; only the two size errors mention numbers. */
  function ErrorText(e: FetchError, max: int): string {
    match e
    case Blocked => "Error: URL not allowed for security reasons"
    case Unfetchable => "Error: Unable to fetch URL content"
    case Unexpected => "Error: An unexpected error occurred while processing the URL"
    case DeclaredTooLarge(h) => "Error: Content too large (" + h + " bytes, max " + IntToString(max) + ")"
    case ExceededLimit => "Error: Content exceeded size limit (" + IntToString(max) + " bytes)"
    case NotText => "Error: Unable to decode content as text"
  }

  /** `fetch_url_content(url)`: page text, or one of the error texts. */
  function FetchUrlContent(cfg: Config, web: Web, url: string): string {
    match Fetch(cfg, web, url)
    case Success(text) => text
    case Failure(e) => ErrorText(e, cfg.maxResponseSize)
  }

  /** The `fetch_url_text` tool: sanitize, then report what was fetched. */
  function FetchUrlText(cfg: Config, web: Web, url: string): (r: string)
    ensures SanitizeUrl(url) == [] ==> r == "Error: Invalid URL format"
  {
    var clean := SanitizeUrl(url);
    if clean == [] then "Error: Invalid URL format"
    else "Text content from " + clean + ":\n\n" + FetchUrlContent(cfg, web, clean)
  }

  /** A refused URL is never requested: the reply the web would give makes no difference. */
  lemma UnsafeUrlNotRequested(cfg: Config, web: Web, get: string -> HttpReply, url: string)
    requires !IsSafeUrl(web.dns, url)
    ensures Fetch(cfg, web, url) == Fetch(cfg, web.(get := get), url) == Failure(Blocked)
    ensures FetchUrlContent(cfg, web, url) == "Error: URL not allowed for security reasons"
  {
  }

  /** A declared Content-Length over the limit refuses the page before any chunk is read:
      two replies with the same status and header agree, whatever bodies they stream. */
  lemma DeclaredLengthBeforeBody(cfg: Config, visibleText: string -> string, status: int,
                                 header: string, body1: seq<Chunk>, body2: seq<Chunk>)
    requires !IsHttpError(status)
    requires header != [] && ParseInt(header).Some? && ParseInt(header).value > cfg.maxResponseSize
    ensures Retrieve(cfg, Reply(status, Some(header), body1), visibleText) ==
            Retrieve(cfg, Reply(status, Some(header), body2), visibleText) ==
            Failure(DeclaredTooLarge(header))
  {
  }

  /** A Content-Length of more than `MaxStrDigits` digits makes `int()` raise: the page is
      refused with the unexpected-error text, before any chunk is read. */
  lemma OverlongLengthUnexpected(cfg: Config, visibleText: string -> string, status: int,
                                 n: int, chunks: seq<Chunk>)
    requires !IsHttpError(status)
    requires |NatToString(if n < 0 then -n else n)| > MaxStrDigits
    ensures Retrieve(cfg, Reply(status, Some(IntToString(n)), chunks), visibleText) == Failure(Unexpected)
  {
    DeclaredLengthOfNumber(n, cfg.maxResponseSize);
  }

  /** A Content-Length padded with a U+001C to U+001F separator, such as "\x1f5", makes `int()`
      raise: the page gets the unexpected-error text, before any chunk is read. */
  lemma SeparatorLengthUnexpected(cfg: Config, visibleText: string -> string, status: int,
                                  header: string, chunks: seq<Chunk>)
    requires !IsHttpError(status)
    requires header != [] && (28 <= header[0] as int <= 31 || 28 <= header[|header| - 1] as int <= 31)
    ensures Retrieve(cfg, Reply(status, Some(header), chunks), visibleText) == Failure(Unexpected)
  {
    SeparatorLengthNotANumber(header, cfg.maxResponseSize);
  }

  /** A page served as plain data chunks within the size limit yields its visible text; text
      within `CONTENT_LENGTH_LIMIT` is returned unchanged, longer text is cut to that many
      characters and marked. */
  lemma FetchOfAcceptedBody(cfg: Config, visibleText: string -> string, status: int,
                            header: Option<string>, chunks: seq<Chunk>)
    requires !IsHttpError(status)
    requires CheckDeclaredLength(header, cfg.maxResponseSize) == WithinLimit
    requires AllData(chunks) && |Joined(chunks)| <= cfg.maxResponseSize
    ensures |visibleText(Joined(chunks))| <= cfg.contentLengthLimit ==>
      Retrieve(cfg, Reply(status, header, chunks), visibleText) == Success(visibleText(Joined(chunks)))
    ensures 0 <= cfg.contentLengthLimit < |visibleText(Joined(chunks))| ==>
      Retrieve(cfg, Reply(status, header, chunks), visibleText) ==
        Success(visibleText(Joined(chunks))[..cfg.contentLengthLimit] + ContentTruncatedMarker)
  {
    ReadAllData(cfg.maxResponseSize, chunks);
    TruncateMeaning(visibleText(Joined(chunks)), cfg.contentLengthLimit, ContentTruncatedMarker);
  }

  /** A body of data chunks whose text passes the size limit is refused with the size-limit
      error. */
  lemma FetchOfOversizedBody(cfg: Config, visibleText: string -> string, status: int,
                             header: Option<string>, chunks: seq<Chunk>)
    requires !IsHttpError(status)
    requires CheckDeclaredLength(header, cfg.maxResponseSize) == WithinLimit
    requires AllData(chunks) && Joined(chunks) != [] && |Joined(chunks)| > cfg.maxResponseSize
    ensures Retrieve(cfg, Reply(status, header, chunks), visibleText) == Failure(ExceededLimit)
  {
    ReadAllData(cfg.maxResponseSize, chunks);
  }

  /** An exception other than a request or decoding error raised while streaming, such as an
      unknown charset, gets the unexpected-error text, whatever the stream would have delivered
      after it; the data read before it stays within the limit. */
  lemma FailedStreamUnexpected(cfg: Config, visibleText: string -> string, status: int,
                               header: Option<string>, run: seq<Chunk>, rest: seq<Chunk>)
    requires !IsHttpError(status)
    requires CheckDeclaredLength(header, cfg.maxResponseSize) == WithinLimit
    requires AllData(run) && |Joined(run)| <= cfg.maxResponseSize
    ensures Retrieve(cfg, Reply(status, header, run + [Failed] + rest), visibleText) == Failure(Unexpected)
  {
    FailureAfterData(cfg.maxResponseSize, run, Failed, rest);
  }
}
