/** Input sanitisers applied before any network access: `sanitize_query` and `sanitize_url`. */
module Sanitize {
  import opened Text

  /** Kept by the control-character filter: code points from 32 up, tab, LF and CR. */
  predicate Allowed(c: char) {
    c as int >= 32 || c == '\t' || c == '\n' || c == '\r'
  }

  predicate NoControls(s: string) {
    forall i :: 0 <= i < |s| ==> Allowed(s[i])
  }

  /** `''.join(ch for ch in s if ord(ch) >= 32 or ch in '\t\n\r')`. */
  function DropControls(s: string): (r: string)
    ensures NoControls(r)
    ensures |r| <= |s|
    ensures forall c :: c in r <==> c in s && Allowed(c)
    ensures NoControls(s) ==> r == s
    decreases |s|
  {
    if s == [] then []
    else (if Allowed(s[0]) then [s[0]] else []) + DropControls(s[1..])
  }

  const MaxQueryLength := 500

  /** Checked in this order, each against the lower-cased query taken once before the loop. */
  const DangerousPatterns: seq<string> := ["<script", "javascript:", "data:", "vbscript:"]

  predicate NonEmptyPatterns(patterns: seq<string>) {
    forall i :: 0 <= i < |patterns| ==> patterns[i] != []
  }

  /** The pattern loop: a pattern detected in `lowered` is removed case-sensitively from the
      current query with `str.replace(pattern, '')`. */
  function RemovePatterns(q: string, lowered: string, patterns: seq<string>): (r: string)
    requires NonEmptyPatterns(patterns)
    ensures |r| <= |q|
    ensures forall c :: c in r ==> c in q
    decreases |patterns|
  {
    if patterns == [] then q
    else
      var next := if Contains(lowered, patterns[0]) then RemoveAll(q, patterns[0]) else q;
      RemovePatterns(next, lowered, patterns[1..])
  }

  /** `sanitize_query`: empty input gives "", otherwise the output is stripped, at most 500
      characters, no longer than the input and free of control characters. */
  function SanitizeQuery(query: string): (r: string)
    ensures query == [] ==> r == []
    ensures Stripped(r)
    ensures |r| <= MaxQueryLength
    ensures |r| <= |query|
    ensures NoControls(r)
  {
    if query == [] then []
    else
      var capped := CapLength(DropControls(query));
      var cleaned := RemoveDangerous(capped);
      assert forall c :: c in cleaned ==> Allowed(c);
      Strip(cleaned)
  }

  /** The first 500 characters. */
  function CapLength(s: string): (r: string)
    ensures |r| <= MaxQueryLength && |r| <= |s| && r == s[..|r|]
    ensures |s| <= MaxQueryLength ==> r == s
  {
    if |s| > MaxQueryLength then s[..MaxQueryLength] else s
  }

  /** The pattern loop: a pattern found in the lower-cased text is removed, as written. */
  function RemoveDangerous(s: string): (r: string)
    ensures |r| <= |s|
    ensures forall c :: c in r ==> c in s
  {
    RemovePatterns(s, Lower(s), DangerousPatterns)
  }

  /** `sanitize_url`: "" (rejection) or a stripped, control-free string that already began with
      `http://` or `https://`; no scheme is ever added, so the output is never longer. */
  function SanitizeUrl(url: string): (r: string)
    ensures r == [] || StartsWith(r, "http://") || StartsWith(r, "https://")
    ensures NoControls(r)
    ensures Stripped(r)
    ensures |r| <= |url|
  {
    if url == [] then []
    else
      var s := Strip(DropControls(url));
      assert forall c :: c in s ==> Allowed(c);
      if s != [] && !(StartsWith(s, "http://") || StartsWith(s, "https://")) then [] else s
  }

  /** A URL is left as it is by `sanitize_url` exactly when it is empty or already clean:
      control-free, stripped and beginning with an allowed scheme. */
  predicate CleanUrl(u: string) {
    u == [] || (NoControls(u) && Stripped(u) && (StartsWith(u, "http://") || StartsWith(u, "https://")))
  }

  lemma SanitizeUrlFixedPoints(u: string)
    ensures SanitizeUrl(u) == u <==> CleanUrl(u)
  {
    if CleanUrl(u) && u != [] {
      StripStripped(u);
    }
  }

  /** `sanitize_url(sanitize_url(x)) == sanitize_url(x)`. */
  lemma SanitizeUrlIdempotent(u: string)
    ensures SanitizeUrl(SanitizeUrl(u)) == SanitizeUrl(u)
  {
    SanitizeUrlFixedPoints(SanitizeUrl(u));
  }

  /** Lower-casing maps an occurrence of an already lower-case pattern onto itself. */
  lemma {:induction false} LowerKeepsOccurrence(s: string, p: string)
    requires Lower(p) == p
    requires Contains(s, p)
    ensures Contains(Lower(s), p)
    decreases |s|
  {
    if StartsWith(s, p) {
      assert Lower(s)[..|p|] == Lower(s[..|p|]);
    } else {
      assert Lower(s)[1..] == Lower(s[1..]);
      LowerKeepsOccurrence(s[1..], p);
    }
  }

  /** If some pattern both was detected and still occurs when its turn comes, the loop removes
      at least one character. */
  lemma {:induction false} RemovePatternsShrinks(q: string, lowered: string, patterns: seq<string>, k: nat)
    requires NonEmptyPatterns(patterns)
    requires k < |patterns|
    requires Contains(q, patterns[k]) && Contains(lowered, patterns[k])
    ensures |RemovePatterns(q, lowered, patterns)| < |q|
    decreases k
  {
    var next := if Contains(lowered, patterns[0]) then RemoveAll(q, patterns[0]) else q;
    if k == 0 {
      RemoveAllUnchangedIff(q, patterns[0]);
    } else if next == q {
      RemovePatternsShrinks(q, lowered, patterns[1..], k - 1);
    } else {
      RemoveAllUnchangedIff(q, patterns[0]);
    }
  }

  /** When no pattern occurs case-sensitively, the pattern loop changes nothing. */
  lemma {:induction false} RemovePatternsNoOccurrence(q: string, lowered: string, patterns: seq<string>)
    requires NonEmptyPatterns(patterns)
    requires forall k :: 0 <= k < |patterns| ==> !Contains(q, patterns[k])
    ensures RemovePatterns(q, lowered, patterns) == q
    decreases |patterns|
  {
    if patterns != [] {
      RemoveAllUnchangedIff(q, patterns[0]);
      RemovePatternsNoOccurrence(q, lowered, patterns[1..]);
    }
  }

  lemma PatternsAreLowerCase()
    ensures forall k :: 0 <= k < |DangerousPatterns| ==> Lower(DangerousPatterns[k]) == DangerousPatterns[k]
  {
    assert Lower("<script") == "<script";
    assert Lower("javascript:") == "javascript:";
    assert Lower("data:") == "data:";
    assert Lower("vbscript:") == "vbscript:";
  }

  /** A query without any of the four patterns (as written, case-sensitively). */
  predicate FreeOfPatterns(q: string) {
    forall k :: 0 <= k < |DangerousPatterns| ==> !Contains(q, DangerousPatterns[k])
  }

  /** The queries `sanitize_query` returns unchanged are exactly the control-free, stripped
      queries of at most 500 characters in which no pattern occurs case-sensitively. */
  lemma SanitizeQueryFixedPoints(q: string)
    ensures SanitizeQuery(q) == q <==>
              NoControls(q) && Stripped(q) && |q| <= MaxQueryLength && FreeOfPatterns(q)
  {
    if q != [] && NoControls(q) && |q| <= MaxQueryLength {
      assert CapLength(DropControls(q)) == q;
      if FreeOfPatterns(q) {
        RemovePatternsNoOccurrence(q, Lower(q), DangerousPatterns);
        if Stripped(q) {
          StripStripped(q);
        }
      } else {
        var k :| 0 <= k < |DangerousPatterns| && Contains(q, DangerousPatterns[k]);
        PatternsAreLowerCase();
        LowerKeepsOccurrence(q, DangerousPatterns[k]);
        RemovePatternsShrinks(q, Lower(q), DangerousPatterns, k);
      }
    }
  }
}
