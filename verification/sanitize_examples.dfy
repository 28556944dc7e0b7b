/** Two inputs on which `sanitize_query` lets a dangerous pattern through. Detection looks at the
    lower-cased query, but removal is a case-sensitive `str.replace` run once per pattern, so an
    upper-case `<SCRIPT` survives and removing one occurrence can join the text around it into
    a new one. */
module SanitizeExamples {
  import opened Text
  import opened Sanitize

  /** Every character of a pattern that occurs in `s` is a character of `s`. */
  lemma {:induction false} OccurrenceUsesOnlyItsChars(s: string, p: string, c: char)
    requires Contains(s, p) && c in p
    ensures c in s
    decreases |s|
  {
    if !StartsWith(s, p) {
      OccurrenceUsesOnlyItsChars(s[1..], p, c);
    } else {
      assert c in s[..|p|];
    }
  }

  /** A pattern starting at index `k` is contained. */
  lemma {:induction false} ContainsFrom(s: string, p: string, k: nat)
    requires k <= |s| && StartsWith(s[k..], p)
    ensures Contains(s, p)
    decreases k
  {
    if k > 0 {
      assert s[1..][k - 1..] == s[k..];
      ContainsFrom(s[1..], p, k - 1);
    }
  }

  /** `replace` keeps a prefix in which no occurrence of the pattern starts. */
  lemma {:induction false} RemoveAllSkipsPrefix(a: string, rest: string, p: string)
    requires p != []
    requires forall i :: 0 <= i < |a| ==> !StartsWith((a + rest)[i..], p)
    ensures RemoveAll(a + rest, p) == a + RemoveAll(rest, p)
    decreases |a|
  {
    if a != [] {
      assert !StartsWith((a + rest)[0..], p);
      assert (a + rest)[0..] == a + rest;
      assert (a + rest)[1..] == a[1..] + rest;
      forall i | 0 <= i < |a[1..]|
        ensures !StartsWith((a[1..] + rest)[i..], p)
      {
        assert (a[1..] + rest)[i..] == (a + rest)[i + 1..];
      }
      RemoveAllSkipsPrefix(a[1..], rest, p);
    }
  }

  lemma LowerConcat(x: string, y: string)
    ensures Lower(x + y) == Lower(x) + Lower(y)
  {
  }

  /** Once a short query is known to be control-free, `sanitize_query` is the pattern loop
      followed by `strip`. */
  lemma SanitizeQueryOfShort(q: string, r: string)
    requires q != [] && NoControls(q) && |q| <= MaxQueryLength
    requires RemovePatterns(q, Lower(q), DangerousPatterns) == r && Stripped(r)
    ensures SanitizeQuery(q) == r
  {
    SanitizeQueryUnfold(q);
    StripStripped(r);
  }

  lemma SanitizeQueryUnfold(q: string)
    requires q != [] && NoControls(q) && |q| <= MaxQueryLength
    ensures SanitizeQuery(q) == Strip(RemovePatterns(q, Lower(q), DangerousPatterns))
  {
    assert CapLength(DropControls(q)) == q;
  }

  /** A pattern with a character the text lacks does not occur in it. */
  lemma MissingCharNoOccurrence(s: string, p: string, c: char)
    requires c in p && c !in s
    ensures !Contains(s, p)
  {
    if Contains(s, p) {
      OccurrenceUsesOnlyItsChars(s, p, c);
    }
  }

  lemma UpperScriptIsFree(q: string)
    requires q == "<SCRIPT"
    ensures FreeOfPatterns(q)
  {
    MissingCharNoOccurrence(q, "<script", 's');
    MissingCharNoOccurrence(q, "javascript:", 'j');
    MissingCharNoOccurrence(q, "data:", 'd');
    MissingCharNoOccurrence(q, "vbscript:", 'v');
    assert DangerousPatterns[0] == "<script";
  }

  lemma UpperScriptIsClean(q: string)
    requires q == "<SCRIPT"
    ensures NoControls(q) && Stripped(q) && |q| <= MaxQueryLength
  {
  }

  lemma UpperScriptLowered(q: string)
    requires q == "<SCRIPT"
    ensures Contains(Lower(q), "<script")
  {
    assert Lower(q) == "<script";
    assert StartsWith(Lower(q), "<script");
  }

  /** An upper-case `<SCRIPT` is detected in the lower-cased query but not removed:
      `sanitize_query` returns it unchanged. */
  lemma UpperCaseScriptSurvives(q: string)
    requires q == "<SCRIPT"
    ensures SanitizeQuery(q) == q
    ensures Contains(Lower(q), "<script")
  {
    UpperScriptIsFree(q);
    UpperScriptIsClean(q);
    SanitizeQueryFixedPoints(q);
    UpperScriptLowered(q);
  }

  lemma ScrPrefixRemoval(a: string, p: string, b: string)
    requires a == "<scr" && p == "<script" && b == "ipt"
    ensures RemoveAll(a + p + b, p) == a + b
  {
    var q := a + p + b;
    assert q == a + (p + b);
    forall i | 0 <= i < |a|
      ensures !StartsWith(q[i..], p)
    {
      if i == 0 { assert q[4] != p[4]; } else { assert q[i] != p[0]; }
    }
    RemoveAllSkipsPrefix(a, p + b, p);
    assert StartsWith(p + b, p);
    assert (p + b)[|p|..] == b;
    MissingCharNoOccurrence(b, p, '<');
    RemoveAllUnchangedIff(b, p);
  }

  /** Patterns not detected in the lower-cased query leave the current query alone. */
  lemma {:induction false} NothingDetected(x: string, lowered: string, patterns: seq<string>)
    requires NonEmptyPatterns(patterns)
    requires forall k :: 0 <= k < |patterns| ==> !Contains(lowered, patterns[k])
    ensures RemovePatterns(x, lowered, patterns) == x
    decreases |patterns|
  {
    if patterns != [] {
      NothingDetected(x, lowered, patterns[1..]);
    }
  }

  lemma ScrLaterPatternsUndetected(a: string, p: string, b: string)
    requires a == "<scr" && p == "<script" && b == "ipt"
    ensures forall k :: 1 <= k < |DangerousPatterns| ==> !Contains(a + p + b, DangerousPatterns[k])
  {
    assert 'j' !in a + p + b && 'd' !in a + p + b && 'v' !in a + p + b;
    MissingCharNoOccurrence(a + p + b, "javascript:", 'j');
    MissingCharNoOccurrence(a + p + b, "data:", 'd');
    MissingCharNoOccurrence(a + p + b, "vbscript:", 'v');
    assert DangerousPatterns[1] == "javascript:";
  }

  lemma ScrPatternLoop(a: string, p: string, b: string)
    requires a == "<scr" && p == "<script" && b == "ipt"
    ensures RemovePatterns(a + p + b, a + p + b, DangerousPatterns) == p
  {
    var q := a + p + b;
    assert q[4..] == p + b;
    ContainsFrom(q, p, 4);
    ScrPrefixRemoval(a, p, b);
    var patterns := DangerousPatterns;
    assert patterns[0] == p;
    assert RemovePatterns(q, q, patterns) == RemovePatterns(a + b, q, patterns[1..]);
    ScrLaterPatternsUndetected(a, p, b);
    NothingDetected(a + b, q, patterns[1..]);
  }

  lemma ScrQueryIsLowerAndClean(a: string, p: string, b: string)
    requires a == "<scr" && p == "<script" && b == "ipt"
    ensures NoControls(a + p + b)
    ensures Lower(a + p + b) == a + p + b
  {
    assert NoControls(a) && NoControls(p) && NoControls(b);
    assert Lower(a) == a && Lower(p) == p && Lower(b) == b;
    LowerConcat(a, p);
    LowerConcat(a + p, b);
  }

  /** `sanitize_query("<scr<scriptipt") == "<script"`: removing the inner occurrence joins the
      outer text into a fresh `<script`, which the single pass never revisits. */
  lemma RemovalCanFormScript(a: string, p: string, b: string)
    requires a == "<scr" && p == "<script" && b == "ipt"
    ensures SanitizeQuery(a + p + b) == p
  {
    ScrQueryIsLowerAndClean(a, p, b);
    ScrPatternLoop(a, p, b);
    assert Stripped(p);
    SanitizeQueryOfShort(a + p + b, p);
  }
}
