# brsearch-mcp-server in Dafny

A model of the decision and bounding logic of the URL-text-fetching and web-search MCP server
(`url-text-fetcher`). It covers two servers. The FastMCP server screens every URL against
server-side request forgery, sanitizes its inputs, streams pages under a size limit, rate-limits
the Brave Search API and caps every text it returns. The older low-level server offers the same
three tools without those guards.

Everything outside the server's own logic is a parameter of the model:

- the network: an `HttpReply` per URL for the FastMCP server, a `Response` for the older one;
- the resolver (`socket.gethostbyname`) and the extra special-purpose address blocks of
  Python's `is_private`;
- the HTML parser: the visible text and the `href` values of a page;
- the search API's reply to a request, and the clock readings around the rate limiter's sleep.

Modules, one per file:

| module | file | models |
|---|---|---|
| `Wrappers` | wrappers.dfy | `Option` and `Result` |
| `Text` | text.dfy | the Python string operations the server uses: `strip`, `replace`, `lower`, slicing, `int()` |
| `Settings` | settings.dfy | the configuration and the clamp of `BRAVE_RATE_LIMIT_RPS` |
| `Sanitize`, `SanitizeExamples` | sanitize.dfy, sanitize_examples.dfy | `sanitize_query`, `sanitize_url`, and two inputs on which `sanitize_query` lets a pattern through |
| `Ipv4`, `UrlSafety`, `UrlSafetyExamples` | ipv4.dfy, url_safety.dfy, url_safety_examples.dfy | `is_safe_url`, with the address blocks it refuses and the URLs of the security test script |
| `Http` | http.dfy | the HTTP reply, the Content-Length check and the size-limited streaming loop |
| `Fetcher` | fetcher.dfy | `fetch_url_content` and the `fetch_url_text` tool |
| `Links` | links.dfy | the `fetch_page_links` tool |
| `RateLimiter`, `SearchClient` | rate_limiter.dfy, search_client.dfy | the lock-protected throttle and `brave_search` |
| `SearchAndFetch` | search_and_fetch.dfy | the `brave_search_and_fetch` tool |
| `LegacyServer` | legacy_server.dfy | `server.py`: its `fetch_url_content`, its `brave_search` and `handle_call_tool` |

Points where the code does something other than its names, comments or messages suggest; the
model follows the code:

- `sanitize_query` detects each dangerous pattern in the lower-cased query and logs it as
  dangerous (src/url_text_fetcher/server_fastmcp.py:109-112). It then removes the pattern with a
  case-sensitive `str.replace`, once per pattern (line 113). So `"<SCRIPT"` is logged yet comes
  back unchanged, and `"<scr<scriptipt"` comes back as `"<script"`; `SanitizeExamples` proves both.
- `fetch_url_content` cuts the text to `CONTENT_LENGTH_LIMIT` characters and then appends the
  truncation marker, so the text it returns can be the limit plus the marker's length.
- `MAX_RESPONSE_SIZE` is counted in bytes by its comment ("10MB default", line 58) and by the
  error texts ("... bytes", lines 211 and 223). The code compares it with the length of the
  decoded text chunks, which is a count of characters.
- `is_safe_url` refuses a host whose address Python's `is_private` reports, and that table has
  no entry for the shared address space 100.64.0.0/10 of RFC 6598. A host resolving there is
  accepted; `SharedAddressSpaceAccepted` proves it for the Python 3.13 table.
- The older server's `handle_call_tool` raises "Missing arguments" (src/url_text_fetcher/server.py:165)
  before its `try`, so it escapes the handler. Its other `ValueError`s are answered as
  "Error: ..." text.
- The security test script imports `is_safe_url` from `server.py` (test_security.py:10), which
  does not define it. Its URLs are checked here against the `is_safe_url` of `server_fastmcp.py`.

## Model

| member | source | states |
|---|---|---|
| Settings.Clamp | src/url_text_fetcher/server_fastmcp.py:61-66 | the result lies in `[lo, hi]`: it is `x` when `x` is inside, otherwise the bound `x` passed |
| Settings.RateLimitRps | src/url_text_fetcher/server_fastmcp.py:61-66 | the rate used lies in [1, 50] and is the configured value whenever that is already in range |
| Settings.MinRequestInterval | src/url_text_fetcher/server_fastmcp.py:69 | the interval times the clamped rate is exactly one second, so it lies between 1/50 and 1 second |
| Text.StripStripped | src/url_text_fetcher/server_fastmcp.py:115 | `strip` leaves a string without leading or trailing whitespace unchanged |
| Text.RemoveAllUnchangedIff | src/url_text_fetcher/server_fastmcp.py:113 | `str.replace(p, '')` changes the string exactly when `p` occurs in it, and then makes it shorter |
| Text.TruncateMeaning | src/url_text_fetcher/server_fastmcp.py:241-244 | text within the limit is returned unchanged; longer text becomes its first `limit` characters plus the marker; either way the result is at most the limit plus the marker |
| Text.ParseIntOfString | src/url_text_fetcher/server_fastmcp.py:209 | `int()` reads back the decimal text of any integer of at most 4300 digits as that integer, and raises `ValueError` on one of more digits (CPython's default `int_max_str_digits`) |
| Text.ParseIntSeparatorEnd | src/url_text_fetcher/server_fastmcp.py:209 | `int()` raises on text with a U+001C to U+001F separator at either end: it skips only tab, LF, VT, FF, CR, space and non-ASCII whitespace, not every character `str.strip()` removes |
| Text.ParseIntSeparatorExample | src/url_text_fetcher/server_fastmcp.py:209 | `int("\x1f5")` raises |
| Sanitize.DropControls | src/url_text_fetcher/server_fastmcp.py:99 | the result keeps exactly the characters that are at code point 32 or above, or tab, LF or CR; it is never longer and leaves a control-free string unchanged |
| Sanitize.CapLength | src/url_text_fetcher/server_fastmcp.py:102-104 | the result is the input's prefix of at most 500 characters, and the whole input when it is that short |
| Sanitize.RemovePatterns | src/url_text_fetcher/server_fastmcp.py:110-113 | the pattern loop never lengthens the query and adds no character |
| Sanitize.RemoveDangerous | src/url_text_fetcher/server_fastmcp.py:107-113 | removing the four patterns never lengthens the query and adds no character |
| Sanitize.SanitizeQuery | src/url_text_fetcher/server_fastmcp.py:91-115 | empty input gives ""; any output is stripped, at most 500 characters, no longer than the input and free of control characters |
| Sanitize.SanitizeUrl | src/url_text_fetcher/server_fastmcp.py:117-134 | the result is "" or starts with `http://` or `https://`; it is control-free, stripped and never longer than the input, so no scheme is ever added |
| Sanitize.SanitizeUrlFixedPoints | src/url_text_fetcher/server_fastmcp.py:121-134 | `sanitize_url` returns a URL unchanged exactly when it is empty, or control-free, stripped and already starts with an allowed scheme |
| Sanitize.SanitizeUrlIdempotent | src/url_text_fetcher/server_fastmcp.py:117-134 | sanitizing a sanitized URL changes nothing |
| Sanitize.LowerKeepsOccurrence | src/url_text_fetcher/server_fastmcp.py:109-111 | a lower-case pattern that occurs in the query also occurs in the lower-cased query, so it is detected |
| Sanitize.PatternsAreLowerCase | src/url_text_fetcher/server_fastmcp.py:108 | the four dangerous patterns are already lower case |
| Sanitize.RemovePatternsShrinks | src/url_text_fetcher/server_fastmcp.py:110-113 | if a detected pattern still occurs when its turn comes, the loop removes at least one character |
| Sanitize.RemovePatternsNoOccurrence | src/url_text_fetcher/server_fastmcp.py:110-113 | when no pattern occurs case-sensitively, the loop changes nothing |
| Sanitize.SanitizeQueryFixedPoints | src/url_text_fetcher/server_fastmcp.py:95-115 | `sanitize_query` returns a query unchanged exactly when it is control-free, stripped, at most 500 characters and contains none of the patterns as written |
| SanitizeExamples.UpperCaseScriptSurvives | src/url_text_fetcher/server_fastmcp.py:109-113 | `"<SCRIPT"` is detected in the lower-cased query, but `sanitize_query` returns it unchanged |
| SanitizeExamples.RemovalCanFormScript | src/url_text_fetcher/server_fastmcp.py:108-115 | `sanitize_query("<scr<scriptipt")` is `"<script"`: one removal forms a new occurrence that the single pass never revisits |
| Ipv4.Rfc1918Blocks | src/url_text_fetcher/server_fastmcp.py:168 | the private-address test is membership of 10.0.0.0/8, 172.16.0.0/12 or 192.168.0.0/16 (section 3 of RFC 1918) |
| Ipv4.BlocksByOctets | src/url_text_fetcher/server_fastmcp.py:168 | the RFC 1918 test, the loopback test (127.0.0.0/8) and the link-local test (169.254.0.0/16) are each membership of their CIDR blocks |
| Ipv4.SharedAddressSpaceNotInternal | src/url_text_fetcher/server_fastmcp.py:167-169 | with Python 3.13's table, an address in 100.64.0.0/10 is not refused, while 192.0.2.0/24 and 240.0.0.0/4 are |
| Ipv4.InternalByBlocks | src/url_text_fetcher/server_fastmcp.py:167-169 | an address is refused exactly when it lies in one of the five blocks or is one of the further special-purpose addresses |
| UrlSafety.FirstOfIsFirst | src/url_text_fetcher/server_fastmcp.py:141 | the split point `urlparse` uses is the first occurrence of the delimiter |
| UrlSafety.ScreenHost | src/url_text_fetcher/server_fastmcp.py:143-159 | the name checks in order (scheme, empty host, blocklist) only ever refuse with a reason, never with `Safe`; a bracketed host is not refused here but left to the resolver |
| UrlSafety.ScreenName | src/url_text_fetcher/server_fastmcp.py:140-159 | a URL the name checks refuse, unparsable ones included, is refused with a reason other than `Safe` |
| UrlSafety.ScreenNameIff | src/url_text_fetcher/server_fastmcp.py:141-159 | the name checks pass, with host `h`, exactly when the URL splits, its scheme is http or https, and its host name `h` (the text inside the brackets for a bracketed host) is present and not on the blocklist |
| UrlSafety.DecideSafeIff | src/url_text_fetcher/server_fastmcp.py:161-180 | after the name checks, a URL is accepted exactly when its host resolves to an address in none of the refused blocks |
| UrlSafety.SharedAddressSpaceAccepted | src/url_text_fetcher/server_fastmcp.py:161-184 | with Python 3.13's table of special-purpose blocks, a URL whose host resolves into the shared address space 100.64.0.0/10 is accepted |
| UrlSafety.SafeIff | src/url_text_fetcher/server_fastmcp.py:136-184 | `is_safe_url` holds exactly when the name checks pass, the host resolves, and the address is not private, loopback, link-local or special-purpose |
| UrlSafety.NoLookupBeforeNameChecks | src/url_text_fetcher/server_fastmcp.py:143-164 | a URL refused by the name checks is refused for that reason, whatever the resolver would answer |
| UrlSafety.ResolutionFailureRefuses | src/url_text_fetcher/server_fastmcp.py:171-175 | a host that does not resolve is refused (fail closed) |
| UrlSafetyExamples.SplitPlain | src/url_text_fetcher/server_fastmcp.py:141 | a plain `scheme://host[:port][/path]` URL splits into its scheme and `host[:port]` |
| UrlSafetyExamples.HostnamePlain | src/url_text_fetcher/server_fastmcp.py:147 | the host name of a plain `host[:port]` is `host` |
| UrlSafetyExamples.ScreenPlain | src/url_text_fetcher/server_fastmcp.py:143-159 | a plain URL is screened on its own scheme and host |
| UrlSafetyExamples.LocalhostRefused | test_security.py:25 | `http://localhost:8080` is refused by the host-name blocklist |
| UrlSafetyExamples.LoopbackLiteralRefused | test_security.py:26 | `http://127.0.0.1:3000` is refused as an internal address |
| UrlSafetyExamples.InternalLiteralRefused | test_security.py:27-29 | a plain host resolving into 10/8, 172.16/12, 192.168/16 or 127/8 is refused as an internal address |
| UrlSafetyExamples.FileSchemeRefused | test_security.py:30 | `file:///etc/passwd` is refused for its scheme |
| UrlSafetyExamples.FtpSchemeRefused | test_security.py:31 | `ftp://internal.server.com` is refused for its scheme |
| UrlSafetyExamples.PublicHostAccepted | test_security.py:18 | `https://www.example.com` is accepted when it resolves to a public address |
| UrlSafetyExamples.SplitBracketed | src/url_text_fetcher/server_fastmcp.py:141 | `scheme://[name]/path` splits into its scheme and `[name]` |
| UrlSafetyExamples.HostnameBracketed | src/url_text_fetcher/server_fastmcp.py:147 | the host name of `[name]` is the name inside the brackets |
| UrlSafetyExamples.BracketedHostResolved | src/url_text_fetcher/server_fastmcp.py:161-180 | a bracketed name such as `http://[vabc.example.com]/` is accepted when it resolves to a public address and refused when resolution fails |
| Http.CheckDeclaredLength | src/url_text_fetcher/server_fastmcp.py:207-211 | the page is refused before reading exactly when a non-empty Content-Length parses to more than the limit; a non-empty header that does not parse is an unexpected error |
| Http.SeparatorLengthNotANumber | src/url_text_fetcher/server_fastmcp.py:208-209 | a Content-Length with a U+001C to U+001F separator at either end is not a number to `int()`, whatever digits it holds |
| Http.DeclaredLengthOfNumber | src/url_text_fetcher/server_fastmcp.py:208-211 | a Content-Length written as a decimal number of more than 4300 digits is not a number to `int()`; a shorter one refuses the page exactly when its value is over the limit |
| Http.ReadBody | src/url_text_fetcher/server_fastmcp.py:213-224 | a completed read with any text is within the limit |
| Http.ReadAllData | src/url_text_fetcher/server_fastmcp.py:213-230 | a body of data chunks is accepted, as the join of its chunks, exactly when its whole text is empty or within the limit, and refused as too large otherwise |
| Http.AbortIgnoresRest | src/url_text_fetcher/server_fastmcp.py:217-223 | once the data read passes the limit, the read ends as too large whatever the stream would deliver next, failures included |
| Http.FailureAfterData | src/url_text_fetcher/server_fastmcp.py:217-254 | an exception raised after data within the limit ends the read as that exception, whatever the stream would deliver next |
| Http.StreamBody | src/url_text_fetcher/server_fastmcp.py:213-230 | the streaming loop with its running total computes the read outcome, and kept text never passes the limit |
| Fetcher.Fetch | src/url_text_fetcher/server_fastmcp.py:186-254 | the security error is returned exactly for URLs `is_safe_url` refuses; page text is at most `CONTENT_LENGTH_LIMIT` plus the marker |
| Fetcher.Retrieve | src/url_text_fetcher/server_fastmcp.py:196-254 | once the URL was accepted, no outcome is the security error, and page text is at most `CONTENT_LENGTH_LIMIT` plus the marker |
| Fetcher.FetchUrlText | src/url_text_fetcher/server_fastmcp.py:322-333 | a URL that `sanitize_url` rejects gets "Error: Invalid URL format" |
| Fetcher.UnsafeUrlNotRequested | src/url_text_fetcher/server_fastmcp.py:191-194 | a refused URL gets exactly "Error: URL not allowed for security reasons", whatever the web would have answered |
| Fetcher.DeclaredLengthBeforeBody | src/url_text_fetcher/server_fastmcp.py:207-211 | a declared Content-Length over the limit gives the "Content too large" error, whatever body would have been streamed |
| Fetcher.OverlongLengthUnexpected | src/url_text_fetcher/server_fastmcp.py:207-254 | a Content-Length of more than 4300 digits makes `int()` raise, so the page gets the unexpected-error answer whatever body it has |
| Fetcher.SeparatorLengthUnexpected | src/url_text_fetcher/server_fastmcp.py:207-254 | a Content-Length padded with a U+001C to U+001F separator, such as `"\x1f5"`, gets the unexpected-error answer whatever body it has |
| Fetcher.FetchOfAcceptedBody | src/url_text_fetcher/server_fastmcp.py:213-247 | a page streamed as data within the limits yields its visible text, unchanged when within `CONTENT_LENGTH_LIMIT`, otherwise cut to that length and marked |
| Fetcher.FetchOfOversizedBody | src/url_text_fetcher/server_fastmcp.py:217-223 | a data body whose text passes `MAX_RESPONSE_SIZE` gives the size-limit error |
| Fetcher.FailedStreamUnexpected | src/url_text_fetcher/server_fastmcp.py:217-254 | an exception raised while streaming that is neither a request error nor a decoding error, such as the `LookupError` of an unknown charset, gets "An unexpected error occurred while processing the URL", whatever followed it |
| Links.FilterLinks | src/url_text_fetcher/server_fastmcp.py:371-377 | every kept link is non-empty and starts with `http://`, `https://` or `/`, and none are added |
| Links.FilterLinksMembers | src/url_text_fetcher/server_fastmcp.py:371-377 | a link is kept exactly when it is one of the page's links and qualifies |
| Links.FilterLinksConcat | src/url_text_fetcher/server_fastmcp.py:374-377 | filtering preserves page order: filtering a page in two parts gives the two filtered parts in order |
| Links.Listed | src/url_text_fetcher/server_fastmcp.py:379-381 | the listing shows a prefix of the qualifying links, `min(count, 100)` of them, and reports the full count |
| Links.PageLinks | src/url_text_fetcher/server_fastmcp.py:336-341 | "Invalid URL format" is returned exactly when `sanitize_url` rejects the URL; a listing is of the sanitized URL and shows at most 100 links |
| Links.ListPage | src/url_text_fetcher/server_fastmcp.py:343-388 | the security error is returned exactly for URLs `is_safe_url` refuses; a listing shows at most 100 links |
| Links.ListReply | src/url_text_fetcher/server_fastmcp.py:348-388 | once the URL was accepted, the outcome is neither of the URL errors, and a listing shows at most 100 links |
| Links.ListingOfPage | src/url_text_fetcher/server_fastmcp.py:358-381 | a page streamed as data within the limits is listed with the first 100 qualifying links, in page order, and their full count |
| Links.FailedStreamUnprocessable | src/url_text_fetcher/server_fastmcp.py:362-388 | an exception raised while streaming that is not a request error, such as the `LookupError` of an unknown charset, gets "Unable to process page", whatever followed it |
| Links.OverlongLengthUnprocessable | src/url_text_fetcher/server_fastmcp.py:354-388 | a Content-Length of more than 4300 digits makes `int()` raise, so the page is answered "Unable to process page" whatever body it has |
| Links.SeparatorLengthUnprocessable | src/url_text_fetcher/server_fastmcp.py:354-388 | a Content-Length padded with a U+001C to U+001F separator is answered "Unable to process page" whatever body it has |
| RateLimiter.SleepTime | src/url_text_fetcher/server_fastmcp.py:267-272 | no sleep once an interval has passed since the last request; otherwise exactly the time left until it has |
| RateLimiter.Throttle | src/url_text_fetcher/server_fastmcp.py:266-273 | the recorded time is at least one interval after the previous one, and not before the call entered the lock |
| RateLimiter.Schedule | src/url_text_fetcher/server_fastmcp.py:265-273 | a run of calls records one time per call |
| RateLimiter.ScheduleAfterStart | src/url_text_fetcher/server_fastmcp.py:265-273 | the `k`-th recorded time is at least `k + 1` intervals after the starting one |
| RateLimiter.ScheduleSpacing | src/url_text_fetcher/server_fastmcp.py:265-273 | any two recorded times are at least as many intervals apart as the calls are apart |
| SearchClient.RequestFor | src/url_text_fetcher/server_fastmcp.py:275-286 | the request goes to the web-search endpoint with the API key, the query and the count |
| SearchClient.HttpFailure | src/url_text_fetcher/server_fastmcp.py:305-312 | status 422 and only it is a rejected query, 429 and only it is the rate-limit error, any other error status is "temporarily unavailable" |
| SearchClient.Records | src/url_text_fetcher/server_fastmcp.py:294-301 | the results convert exactly when every one is an object, one record each |
| SearchClient.RecordsFields | src/url_text_fetcher/server_fastmcp.py:296-301 | record `k` carries result `k`'s title, URL and description, "" for a missing one |
| SearchClient.Extract | src/url_text_fetcher/server_fastmcp.py:292-301 | a body that is not JSON is a network error (requests 2.27 and later); a missing `web` or `results` gives no results; the only failures are the network and the unexpected error |
| SearchClient.BraveSearch | src/url_text_fetcher/server_fastmcp.py:256-318 | the missing-key error comes exactly when the key is empty, and then no request is sent and the limiter is untouched; otherwise the request is sent and the recorded time moves at least one interval on |
| SearchClient.SearchResultsInOrder | src/url_text_fetcher/server_fastmcp.py:294-304 | a successful search returns one record per result, in order, with its fields |
| SearchClient.HttpErrorsByStatus | src/url_text_fetcher/server_fastmcp.py:305-312 | an HTTP error status is reported by the message for its status, whatever the body says |
| SearchAndFetch.Block | src/url_text_fetcher/server_fastmcp.py:428-456 | each result taken adds five lines |
| SearchAndFetch.Consumed | src/url_text_fetcher/server_fastmcp.py:424-426 | the loop takes no more results than there are |
| SearchAndFetch.Entries | src/url_text_fetcher/server_fastmcp.py:421-456 | one block per result taken |
| SearchAndFetch.ConsumedStops | src/url_text_fetcher/server_fastmcp.py:423-452 | each result taken was reached with fewer than `max_results` pages fetched; at most `max_results` pages are fetched; results are left unread only once `max_results` were fetched |
| SearchAndFetch.EntryBlock | src/url_text_fetcher/server_fastmcp.py:432-452 | result `k` of those taken is shown numbered after the pages fetched for the results before it, and only results with a URL count |
| SearchAndFetch.SharedNumber | src/url_text_fetcher/server_fastmcp.py:432-454 | a result without a URL and the result after it are printed with the same number |
| SearchAndFetch.BlockContentBudget | src/url_text_fetcher/server_fastmcp.py:445-451 | a fetched result's content line is at most its budget plus the marker |
| SearchAndFetch.ResultContentBudget | src/url_text_fetcher/server_fastmcp.py:444-452 | every fetched result of the report is shown within its per-result budget plus the marker |
| SearchAndFetch.CollectEntries | src/url_text_fetcher/server_fastmcp.py:421-456 | the loop gathers the blocks of exactly the results taken, and `fetched_count` ends as the number of those with a URL |
| SearchAndFetch.Render | src/url_text_fetcher/server_fastmcp.py:458-462 | the report is at most `CONTENT_LENGTH_LIMIT` plus the marker |
| SearchAndFetch.Answer | src/url_text_fetcher/server_fastmcp.py:415-471 | any search failure gives one fixed text; no results give the notice naming the query; otherwise the report is at most the limit plus the marker |
| SearchAndFetch.BraveSearchAndFetch | src/url_text_fetcher/server_fastmcp.py:390-471 | an empty sanitized query is refused with no search and the limiter untouched; otherwise the sanitized query is searched for twice the clamped `max_results`; without a key nothing is sent |
| SearchAndFetch.SearchFailureHidden | src/url_text_fetcher/server_fastmcp.py:467-471 | whatever went wrong in the search, the caller sees "Error: Search operation failed" |
| LegacyServer.Get | src/url_text_fetcher/server.py:40-41 | a request exception is reported with its text; a reply succeeds exactly when its status is not an HTTP error |
| LegacyServer.FetchUrlContent | src/url_text_fetcher/server.py:34-56 | every failure becomes "Error fetching content: " plus its text; text within the limit is returned unchanged, longer text is cut to the limit and marked |
| LegacyServer.BraveSearch | src/url_text_fetcher/server.py:58-96 | an unset key raises the missing-key error before any request; every other failure is re-raised as "Brave search failed: " plus a text that depends on the request and its reply (the text of an HTTP or connection error names the request URL); a successful response without `web` or without `results` in it is an empty result list |
| LegacyServer.LegacyResultsInOrder | src/url_text_fetcher/server.py:85-94 | a successful search returns one record per result, in order, with its fields, "" for a missing one |
| LegacyServer.LegacyBlock | src/url_text_fetcher/server.py:236-249 | each result taken adds six lines |
| LegacyServer.LegacyLoop | src/url_text_fetcher/server.py:228-249 | result `k` is numbered after the pages fetched before it; the loop stops as soon as `max_results` pages were fetched and never fetches more |
| LegacyServer.Given | src/url_text_fetcher/server.py:169-171 | an argument is present exactly when its key is given with a non-empty value |
| LegacyServer.HandleCallTool | src/url_text_fetcher/server.py:164-165 | "Missing arguments" escapes exactly when the arguments are absent or empty; everything else is answered |
| LegacyServer.SearchTool | src/url_text_fetcher/server.py:206-222 | a search failure is answered as "Error: " plus its text; no results give the notice naming the query |
| LegacyServer.MissingInputsAnswered | src/url_text_fetcher/server.py:168-209 | a missing URL or query is answered with "Error: Missing URL" or "Error: Missing search query" |
| LegacyServer.FetchesAnyUrl | src/url_text_fetcher/server.py:168-184 | the older `fetch_url_text` requests any URL it is given and returns `get_text` of the page, without removing script and style elements first, uncut |
| LegacyServer.UnknownToolAnswered | src/url_text_fetcher/server.py:259-275 | an unknown tool name is answered with "Error: Unknown tool: " plus the name |

## Left out

- HTTP transport: headers, timeouts, redirects, `stream=True` and the chunk size. A reply is a record of status, Content-Length header and decoded chunks.
- Chunks are decoded text, a request error, a decoding error, or any other exception (`Failed`, such as the `LookupError` of an unknown charset in the Content-Type). `iter_content(decode_unicode=True)` can also yield bytes when no encoding is known, and that case is not modelled.
- BeautifulSoup: parsing, `get_text` and `find_all('a', href=True)` are parameters. Exceptions raised while parsing are not modelled.
- The exact text of an exception (`str(e)`) in the older server is a parameter (`statusError`, `describe`, `Raised`). `statusError` takes the URL and `describe` takes the request, since requests puts the URL with its query string into the text of an HTTP or connection error.
- The lock, the threads and true concurrency. The rate limiter is modelled as calls in sequence. `time.time()` and the length of `time.sleep` are parameters; the model assumes only that sleeping never returns early and that the clock does not step backwards between the two readings of one call (`Throttle` requires a non-negative elapsed time).
- Logging, `ctx.info`, `ctx.error` and `ctx.report_progress`. They send nothing back to the caller.
- `load_env`, `get_int_env` and the environment. `Config` holds the values already read; the fallback on a malformed number is not modelled.
- `main`, tool registration, `handle_list_tools` and the MCP transport.
- The test scripts beyond their URL lists. They reach the network.
- JSON values other than the modelled ones. Search fields are strings or missing; a JSON `null` field, a `results` value that is not a list and a top-level JSON document that is not an object are not modelled.
- Argument values of other JSON types in the older `handle_call_tool`. A `max_results` that is not an integer, and what `max_results * 2` does with it, are not modelled.
- Pydantic's `Field(ge=1, le=10)` validation. The model keeps the server's own clamp, so any integer is accepted.
- IPv6. A bracketed host is screened by the text inside its brackets and handed to the resolver like any other name; the resolver returns IPv4 addresses only, so `gethostbyname` failing on an IPv6 literal is a resolver answering `None`.
- Unicode case and digits: `str.lower` is modelled for ASCII letters, and `int()` for ASCII digits. The lower-casing difference cannot change a match of the patterns or the blocked host names; a Content-Length written in non-ASCII digits is read as not a number.
- Text.ParseInt: its own contract states only that a parse succeeds on non-blank text of at most 4300 digits. The limit is CPython's default `sys.int_info.default_max_str_digits` (3.10.7 and later); a release before 3.10.7, or a limit reconfigured through `PYTHONINTMAXSTRDIGITS`, is not modelled. Its value is stated by `ParseIntOfString` for decimal text; other accepted forms (a `+` sign, underscores between digits, the whitespace `int()` skips at either end) follow its definition.
- UrlSafety.SplitUrl: models only the scheme and network location of `urlparse`, and its `ValueError` for an unbalanced bracket. The NFKC check on non-ASCII network locations and the validation of bracketed hosts are not modelled: Python 3.11.4 and later raise `ValueError` for a bracketed host that is neither an IPv6 address nor an IPvFuture literal (`[example.com]`), which the source refuses as unparsable, while the model hands the name to the resolver as earlier releases do.
- UrlSafety.SafeIff: on Python 3.11.4 and later it accepts more than the source for a bracketed host that is neither an IPv6 address nor an IPvFuture literal (a bracketed IPv4 address such as `[93.184.215.14]` included), as the line above says; on earlier releases it is exact.
- SearchClient.Extract: a body that is not JSON is a network error from requests 2.27 on, where `Response.json()` raises `requests.JSONDecodeError`, a `RequestException`. Earlier releases raise a plain `ValueError`, which `brave_search` answers as "An unexpected error occurred during search"; those releases are not modelled.
- Floating point. `time.time()`, `time.sleep` and `1.0 / BRAVE_RATE_LIMIT_RPS` are modelled as exact reals, so `RateLimiter.ScheduleSpacing` and the other rate-limiter lemmas are statements of exact arithmetic; rounding of Python floats is not modelled.
- Ipv4.IsPrivate: the blocks of Python's table of private networks beyond RFC 1918, loopback and link-local are one parameter, since the table differs between releases. `Ipv4.PythonSpecial` is the Python 3.13 table: 0.0.0.0/8, 192.0.0.0/24 except 192.0.0.9 and 192.0.0.10, 192.0.2.0/24, 198.18.0.0/15, 198.51.100.0/24, 203.0.113.0/24 and 240.0.0.0/4, which holds 255.255.255.255. Releases before 3.12.4 have 192.0.0.0/29 and 192.0.0.170/31 in place of 192.0.0.0/24. No release lists the shared address space 100.64.0.0/10 of RFC 6598, so `is_safe_url` does not refuse a host that resolves into it.
- Fetcher.FetchUrlText: its contract covers the rejected URL. The text of an accepted URL follows from `Fetch` through its definition.
- SearchAndFetch.Render: its contract bounds the length. The report's contents are stated by `Entries`, `EntryBlock` and `ResultContentBudget`, not by `Render` itself.
- SearchAndFetch.ResultContentBudget: is stated for any budget that is not negative. The report uses `CONTENT_LENGTH_LIMIT // max_results`, which is such a budget when the limit is not negative.
- LegacyServer.LegacyRender and LegacyServer.CallTool: have no contract of their own. `LegacyLoop`, `MissingInputsAnswered`, `FetchesAnyUrl` and `UnknownToolAnswered` state their behaviour.
- LegacyServer.BraveSearch: the older client reads the key from the environment on every call. Here it is the configured key.
