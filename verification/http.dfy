/** What the two page tools see of an HTTP exchange, and the size-limited streaming read they
    share: the response is a record (status, optional Content-Length header, decoded chunks),
    and the network, the resolver and the HTML parser are parameters. */
module Http {
  import opened Wrappers
  import opened Text
  import opened UrlSafety

  /** One item produced by `resp.iter_content(chunk_size=8192, decode_unicode=True)`. */
  datatype Chunk =
    | Data(text: string)   // a decoded chunk; "" for a keep-alive chunk
    | Undecodable          // UnicodeDecodeError raised while decoding
    | Broken               // requests.RequestException raised while streaming
    | Failed               // any other exception while streaming, such as the LookupError of
                           // an unknown charset in the Content-Type

  /** The outcome of `requests.get(url, stream=True)`. */
  datatype HttpReply =
    | Unreachable          // requests.RequestException: connection error, timeout, invalid URL
    | Reply(status: int, contentLength: Option<string>, body: seq<Chunk>)

  /** The world outside the server: the resolver, the web, and BeautifulSoup's view of a page
      (`get_text` after removing scripts and styles, and the `href` of every `<a href>`). */
  datatype Web = Web(
    dns: Dns,
    get: string -> HttpReply,
    visibleText: string -> string,
    hrefs: string -> seq<string>
  )

  /** `resp.raise_for_status()` raises `HTTPError` for client and server error statuses. */
  predicate IsHttpError(status: int) {
    400 <= status < 600
  }

  /** The Content-Length test both tools make before reading the body. */
  datatype LengthVerdict =
    | WithinLimit   // no header, an empty one, or a declared size within the limit
    | NotANumber    // `int(content_length)` raised ValueError
    | OverLimit     // the declared size exceeds the limit

  function CheckDeclaredLength(header: Option<string>, max: int): (r: LengthVerdict)
    ensures r == OverLimit <==>
      header.Some? && header.value != [] && ParseInt(header.value).Some? && ParseInt(header.value).value > max
    ensures r == NotANumber <==> header.Some? && header.value != [] && ParseInt(header.value).None?
  {
    match header
    case None => WithinLimit
    case Some(h) =>
      if h == [] then WithinLimit
      else match ParseInt(h)
        case None => NotANumber
        case Some(n) => if n > max then OverLimit else WithinLimit
  }

  /** A Content-Length written as a decimal number is compared by its value; one of more than
      `MaxStrDigits` digits is not a number to `int()`. */
  lemma DeclaredLengthOfNumber(n: int, max: int)
    ensures CheckDeclaredLength(Some(IntToString(n)), max) ==
      if |NatToString(if n < 0 then -n else n)| > MaxStrDigits then NotANumber
      else if n > max then OverLimit
      else WithinLimit
  {
    ParseIntOfString(n);
  }

  /** A Content-Length with a U+001C to U+001F separator at either end is not a number to
      `int()`, whatever digits it holds. */
  lemma SeparatorLengthNotANumber(h: string, max: int)
    requires h != [] && (28 <= h[0] as int <= 31 || 28 <= h[|h| - 1] as int <= 31)
    ensures CheckDeclaredLength(Some(h), max) == NotANumber
  {
    ParseIntSeparatorEnd(h);
  }

  /** How the streaming read ended. */
  datatype BodyRead =
    | Body(text: string)   // every chunk accepted: `''.join(content_chunks)`
    | TooLarge             // the running total passed the limit
    | DecodeFailed         // UnicodeDecodeError
    | StreamFailed         // requests.RequestException
    | OtherFailure         // any other exception

  /** `s` in front of the text of a completed read; a failed read stays failed. */
  function Prepend(s: string, r: BodyRead): BodyRead {
    if r.Body? then Body(s + r.text) else r
  }

  /** The streaming loop with `budget` characters still allowed: empty chunks are skipped, and
      the first chunk that would take the total past the limit ends the read. A completed read
      with any text stays within the budget. */
  function ReadBody(budget: int, chunks: seq<Chunk>): (r: BodyRead)
    ensures r.Body? && r.text != [] ==> |r.text| <= budget
    decreases |chunks|
  {
    if chunks == [] then Body([])
    else
      match chunks[0]
      case Undecodable => DecodeFailed
      case Broken => StreamFailed
      case Failed => OtherFailure
      case Data(t) =>
        if t == [] then ReadBody(budget, chunks[1..])
        else if |t| > budget then TooLarge
        else Prepend(t, ReadBody(budget - |t|, chunks[1..]))
  }

  predicate AllData(chunks: seq<Chunk>) {
    forall k :: 0 <= k < |chunks| ==> chunks[k].Data?
  }

  /** The text of all data chunks, in order. */
  function Joined(chunks: seq<Chunk>): string
    decreases |chunks|
  {
    if chunks == [] then []
    else (if chunks[0].Data? then chunks[0].text else []) + Joined(chunks[1..])
  }

  lemma PrependPrepend(a: string, b: string, r: BodyRead)
    ensures Prepend(a, Prepend(b, r)) == Prepend(a + b, r)
  {
    if r.Body? {
      assert a + (b + r.text) == (a + b) + r.text;
    }
  }

  /** Taking the first chunk off a run of data chunks. */
  lemma DataTail(run: seq<Chunk>)
    requires AllData(run) && run != []
    ensures AllData(run[1..]) && run[0].Data?
  {
    assert forall k :: 0 <= k < |run[1..]| ==> run[1..][k] == run[k + 1];
  }

  /** A body of data chunks only is accepted exactly when its whole text is within the limit
      (or empty): the running total only grows, so checking every prefix is checking the end. */
  lemma {:induction false} ReadAllData(budget: int, chunks: seq<Chunk>)
    requires AllData(chunks)
    ensures ReadBody(budget, chunks) ==
      if Joined(chunks) != [] && |Joined(chunks)| > budget then TooLarge else Body(Joined(chunks))
    decreases |chunks|
  {
    if chunks != [] {
      var t := chunks[0].text;
      var tail := chunks[1..];
      DataTail(chunks);
      assert Joined(chunks) == t + Joined(tail);
      if t == [] {
        ReadAllData(budget, tail);
      } else if |t| <= budget {
        ReadAllData(budget - |t|, tail);
      }
    }
  }

  /** A run of data that passes the limit ends the read, whatever the stream would have
      delivered afterwards, failures included. */
  lemma {:induction false} AbortIgnoresRest(budget: int, run: seq<Chunk>, rest: seq<Chunk>)
    requires AllData(run) && Joined(run) != [] && |Joined(run)| > budget
    ensures ReadBody(budget, run + rest) == TooLarge
    decreases |run|
  {
    var t := run[0].text;
    var tail := run[1..];
    DataTail(run);
    assert (run + rest)[0] == run[0] && (run + rest)[1..] == tail + rest;
    assert Joined(run) == t + Joined(tail);
    if t == [] {
      AbortIgnoresRest(budget, tail, rest);
    } else if |t| <= budget {
      AbortIgnoresRest(budget - |t|, tail, rest);
    }
  }

  /** A failure raised after a run of data that stays within the limit ends the read as that
      failure, whatever the stream would have delivered afterwards. */
  lemma {:induction false} FailureAfterData(budget: int, run: seq<Chunk>, c: Chunk, rest: seq<Chunk>)
    requires AllData(run) && !(Joined(run) != [] && |Joined(run)| > budget)
    requires !c.Data?
    ensures ReadBody(budget, run + [c] + rest) == ReadBody(budget, [c])
    decreases |run|
  {
    if run == [] {
      assert run + [c] + rest == [c] + rest;
    } else {
      var t := run[0].text;
      var tail := run[1..];
      DataTail(run);
      assert (run + [c] + rest)[0] == run[0] && (run + [c] + rest)[1..] == tail + [c] + rest;
      assert Joined(run) == t + Joined(tail);
      if t == [] {
        FailureAfterData(budget, tail, c, rest);
      } else {
        FailureAfterData(budget - |t|, tail, c, rest);
      }
    }
  }

  /** The read loop of `fetch_url_content` and `fetch_page_links`: `content_chunks` is `acc`, `total_size` its length, never above the
      limit once a chunk was kept. */
  method StreamBody(max: int, chunks: seq<Chunk>) returns (r: BodyRead)
    ensures r == ReadBody(max, chunks)
    ensures r.Body? && r.text != [] ==> |r.text| <= max
  {
    var acc: string := [];
    var total := 0;
    var i := 0;
    while i < |chunks|
      invariant 0 <= i <= |chunks|
      invariant total == |acc|
      invariant acc == [] || total <= max
      invariant ReadBody(max, chunks) == Prepend(acc, ReadBody(max - total, chunks[i..]))
      decreases |chunks| - i
    {
      assert chunks[i..][0] == chunks[i] && chunks[i..][1..] == chunks[i + 1..];
      match chunks[i] {
        case Undecodable =>
          return DecodeFailed;
        case Broken =>
          return StreamFailed;
        case Failed =>
          return OtherFailure;
        case Data(t) =>
          if t != [] {
            PrependPrepend(acc, t, ReadBody(max - total - |t|, chunks[i + 1..]));
            total := total + |t|;
            if total > max {
              return TooLarge;
            }
            acc := acc + t;
          }
      }
      i := i + 1;
    }
    assert chunks[i..] == [];
    return Body(acc);
  }
}
