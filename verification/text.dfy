/** The handful of Python `str` operations the server relies on, over `string` (a `seq<char>`). */
module Text {
  import opened Wrappers

  /** Python's `str.isspace()`: the characters `str.strip()` removes. */
  predicate IsSpace(c: char) {
    var n := c as int;
    || (9 <= n <= 13) || (28 <= n <= 32) || n == 0x85 || n == 0xA0 || n == 0x1680
    || (0x2000 <= n <= 0x200A) || n == 0x2028 || n == 0x2029 || n == 0x202F
    || n == 0x205F || n == 0x3000
  }

  /** Neither end is whitespace: what `str.strip()` always produces. */
  predicate Stripped(s: string) {
    s == [] || (!IsSpace(s[0]) && !IsSpace(s[|s| - 1]))
  }

  /** `str.lstrip()`: the longest whitespace prefix removed. */
  function TrimStart(s: string): (r: string)
    ensures |r| <= |s| && r == s[|s| - |r|..]
    ensures forall k :: 0 <= k < |s| - |r| ==> IsSpace(s[k])
    ensures r == [] || !IsSpace(r[0])
  {
    if s != [] && IsSpace(s[0]) then TrimStart(s[1..]) else s
  }

  /** `str.rstrip()`: the longest whitespace suffix removed. */
  function TrimEnd(s: string): (r: string)
    ensures |r| <= |s| && r == s[..|r|]
    ensures forall k :: |r| <= k < |s| ==> IsSpace(s[k])
    ensures r == [] || !IsSpace(r[|r| - 1])
  {
    if s != [] && IsSpace(s[|s| - 1]) then TrimEnd(s[..|s| - 1]) else s
  }

  /** `str.strip()`: a contiguous slice of `s` with no whitespace at either end. */
  function Strip(s: string): (r: string)
    ensures Stripped(r)
    ensures |r| <= |s|
    ensures forall c :: c in r ==> c in s
  {
    var t := TrimStart(s);
    var r := TrimEnd(t);
    assert forall c :: c in r ==> c in t;
    r
  }

  /** Stripping a string that is already stripped changes nothing. */
  lemma {:induction false} StripStripped(s: string)
    requires Stripped(s)
    ensures Strip(s) == s
  {
    assert TrimStart(s) == s;
    assert TrimEnd(s) == s;
  }

  /** `s.startswith(p)`. */
  predicate StartsWith(s: string, p: string) {
    |p| <= |s| && s[..|p|] == p
  }

  /** Python's `p in s` for strings. */
  predicate Contains(s: string, p: string)
    decreases |s|
  {
    StartsWith(s, p) || (s != [] && Contains(s[1..], p))
  }

  /** Python's `s.replace(p, '')`: occurrences are found left to right and do not overlap. */
  function RemoveAll(s: string, p: string): (r: string)
    requires p != []
    ensures |r| <= |s|
    ensures forall c :: c in r ==> c in s
    decreases |s|
  {
    if s == [] then []
    else if StartsWith(s, p) then RemoveAll(s[|p|..], p)
    else [s[0]] + RemoveAll(s[1..], p)
  }

  /** `s.replace(p, '')` leaves `s` unchanged exactly when `p` does not occur in it,
      and makes it strictly shorter otherwise. */
  lemma {:induction false} RemoveAllUnchangedIff(s: string, p: string)
    requires p != []
    ensures RemoveAll(s, p) == s <==> !Contains(s, p)
    ensures Contains(s, p) ==> |RemoveAll(s, p)| < |s|
    decreases |s|
  {
    if s != [] {
      RemoveAllUnchangedIff(s[1..], p);
      if StartsWith(s, p) {
        assert |RemoveAll(s, p)| <= |s| - |p|;
      } else {
        assert RemoveAll(s, p) == [s[0]] + RemoveAll(s[1..], p);
        if RemoveAll(s, p) == s {
          assert RemoveAll(s[1..], p) == s[1..];
        }
        if RemoveAll(s[1..], p) == s[1..] {
          assert [s[0]] + s[1..] == s;
        }
      }
    }
  }

  /** ASCII lower-casing of one character. */
  function LowerChar(c: char): char {
    if 'A' <= c <= 'Z' then (c as int + 32) as char else c
  }

  /** `str.lower()` on the ASCII letters; every other character is kept. */
  function Lower(s: string): (r: string)
    ensures |r| == |s|
    ensures forall i :: 0 <= i < |s| ==> r[i] == LowerChar(s[i])
  {
    seq(|s|, i requires 0 <= i < |s| => LowerChar(s[i]))
  }

  /** Python's slice `s[:n]`, including the negative `n` that counts from the end. */
  function Take(s: string, n: int): (r: string)
    ensures 0 <= n <= |s| ==> r == s[..n]
    ensures |s| <= n ==> r == s
    ensures n < 0 ==> r == s[..if |s| + n < 0 then 0 else |s| + n]
  {
    if n < 0 then s[..if |s| + n < 0 then 0 else |s| + n]
    else if n <= |s| then s[..n]
    else s
  }

  /** The truncation idiom of both `fetch_url_content`s: `if len(s) > limit: s = s[:limit] + marker`. */
  function Truncate(s: string, limit: int, marker: string): string {
    if |s| > limit then Take(s, limit) + marker else s
  }

  /** A text within the limit is returned unchanged; a longer one becomes its first
      `limit` characters followed by the marker, so for a non-negative limit the result
      never exceeds `limit + |marker|` characters. */
  lemma TruncateMeaning(s: string, limit: int, marker: string)
    ensures |s| <= limit ==> Truncate(s, limit, marker) == s
    ensures 0 <= limit < |s| ==> Truncate(s, limit, marker) == s[..limit] + marker
    ensures 0 <= limit ==> |Truncate(s, limit, marker)| <= limit + |marker|
    ensures 0 <= limit ==> |Truncate(s, limit, marker)| <= |s| + |marker|
  {
  }

  /** `ch * n`. */
  function Repeat(ch: char, n: nat): (r: string)
    ensures |r| == n
    ensures forall i :: 0 <= i < n ==> r[i] == ch
  {
    seq(n, _ => ch)
  }

  /** `sep.join(parts)`. */
  function Join(sep: string, parts: seq<string>): string
    decreases |parts|
  {
    if parts == [] then []
    else if |parts| == 1 then parts[0]
    else parts[0] + sep + Join(sep, parts[1..])
  }

  function DigitChar(d: int): char
    requires 0 <= d < 10
  {
    "0123456789"[d]
  }

  /** Decimal rendering of a natural number, as `str(n)`. */
  function NatToString(n: nat): (r: string)
    ensures r != []
    decreases n
  {
    if n < 10 then [DigitChar(n)] else NatToString(n / 10) + [DigitChar(n % 10)]
  }

  /** Decimal rendering of an integer, as `str(n)` / an f-string. */
  function IntToString(n: int): string {
    if n < 0 then "-" + NatToString(-n) else NatToString(n)
  }

  predicate IsDigit(c: char) {
    '0' <= c <= '9'
  }

  /** What Python's `int(s)` accepts in base 10 after `strip()` and an optional sign:
      ASCII digits, with single underscores allowed between digits. */
  predicate DigitGroups(s: string) {
    && s != []
    && IsDigit(s[0]) && IsDigit(s[|s| - 1])
    && (forall i :: 0 <= i < |s| ==> IsDigit(s[i]) || s[i] == '_')
    && (forall i :: 0 <= i < |s| - 1 ==> !(s[i] == '_' && s[i + 1] == '_'))
  }

  /** The value of a run of digits and underscores, underscores ignored. */
  function DigitsValue(s: string): nat
    decreases |s|
  {
    if s == [] then 0
    else
      var last := s[|s| - 1];
      if IsDigit(last) then DigitsValue(s[..|s| - 1]) * 10 + (last as int - '0' as int)
      else DigitsValue(s[..|s| - 1])
  }

  /** `sys.int_info.default_max_str_digits`: `int()` of a decimal `str` with more digits than
      this raises `ValueError` (CPython 3.10.7 and later, unless the limit is reconfigured). */
  const MaxStrDigits := 4300

  /** The number of digits in `s`; underscores and signs are not digits. */
  function DigitCount(s: string): (r: nat)
    ensures r <= |s|
    decreases |s|
  {
    if s == [] then 0 else (if IsDigit(s[0]) then 1 else 0) + DigitCount(s[1..])
  }

  lemma SignNotDigit(t: string)
    requires t != [] && (t[0] == '+' || t[0] == '-')
    ensures DigitCount(t) == DigitCount(t[1..])
  {
  }

  /** The whitespace `int()` skips around its digits: every `str.isspace()` character except the
      ASCII separators U+001C to U+001F, which CPython does not convert to a space first. */
  predicate IsIntSpace(c: char) {
    IsSpace(c) && !(28 <= c as int <= 31)
  }

  predicate IntStripped(s: string) {
    s == [] || (!IsIntSpace(s[0]) && !IsIntSpace(s[|s| - 1]))
  }

  /** The text `int()` reads: `s` with the whitespace it skips removed from both ends. A string
      whose first (last) character is not skipped keeps it. */
  function IntStrip(s: string): (r: string)
    ensures IntStripped(r) && |r| <= |s|
    ensures s != [] && !IsIntSpace(s[0]) ==> r == s[..|r|]
    ensures s != [] && !IsIntSpace(s[|s| - 1]) ==> r == s[|s| - |r|..]
    decreases |s|
  {
    if s != [] && IsIntSpace(s[0]) then IntStrip(s[1..])
    else if s != [] && IsIntSpace(s[|s| - 1]) then IntStrip(s[..|s| - 1])
    else s
  }

  /** A digit run `int()` converts: well formed, and within the digit limit. */
  predicate Convertible(s: string) {
    DigitGroups(s) && DigitCount(s) <= MaxStrDigits
  }

  /** Python's `int(s)` for a `str`; `None` where Python raises `ValueError`. */
  function ParseInt(s: string): (r: Option<int>)
    ensures r.Some? ==> IntStrip(s) != [] && DigitCount(IntStrip(s)) <= MaxStrDigits
  {
    var t := IntStrip(s);
    if t == [] then None
    else if t[0] == '+' || t[0] == '-' then
      SignNotDigit(t);
      if Convertible(t[1..]) then
        var v: int := DigitsValue(t[1..]);
        Some(if t[0] == '-' then -v else v)
      else None
    else if Convertible(t) then Some(DigitsValue(t))
    else None
  }

  lemma DigitCharValue(d: int)
    requires 0 <= d < 10
    ensures IsDigit(DigitChar(d)) && DigitChar(d) as int - '0' as int == d
  {
    assert "0123456789"[d] as int == '0' as int + d by {
      assert forall k :: 0 <= k < 10 ==> "0123456789"[k] as int == '0' as int + k;
    }
  }

  /** `str(n)` is a run of digits whose value is `n`. */
  lemma {:induction false} NatToStringValue(n: nat)
    ensures forall i :: 0 <= i < |NatToString(n)| ==> IsDigit(NatToString(n)[i])
    ensures DigitsValue(NatToString(n)) == n
    decreases n
  {
    var s := NatToString(n);
    if n < 10 {
      DigitCharValue(n);
      assert s[..|s| - 1] == [];
    } else {
      NatToStringValue(n / 10);
      DigitCharValue(n % 10);
      assert s[..|s| - 1] == NatToString(n / 10);
    }
  }

  /** A non-empty run of digits, with no underscore at all, is a valid digit run for `int()`
      whose digit count is its length. */
  lemma {:induction false} AllDigitsGroups(s: string)
    requires s != [] && forall i :: 0 <= i < |s| ==> IsDigit(s[i])
    ensures DigitGroups(s) && DigitCount(s) == |s|
    decreases |s|
  {
    if |s| > 1 {
      AllDigitsGroups(s[1..]);
    }
  }

  /** A U+001C to U+001F separator at either end makes `int()` raise, though `str.strip()`
      would remove it: `int("\x1f5")` is a `ValueError`. */
  lemma {:induction false} ParseIntSeparatorEnd(s: string)
    requires s != [] && (28 <= s[0] as int <= 31 || 28 <= s[|s| - 1] as int <= 31)
    ensures ParseInt(s) == None
  {
    var t := IntStrip(s);
    if t != [] {
      if 28 <= s[0] as int <= 31 {
        assert t[0] == s[0];
      } else {
        assert t[|t| - 1] == s[|s| - 1];
        assert |t| > 1 ==> t[1..][|t| - 2] == t[|t| - 1];
      }
    }
  }

  lemma ParseIntSeparatorExample(s: string)
    requires s == "\U{1f}5"
    ensures ParseInt(s) == None
  {
    ParseIntSeparatorEnd(s);
  }

  /** `int()` of a stripped run of digits: its value, or `ValueError` past the digit limit. */
  lemma ParseIntOfDigits(t: string)
    requires Stripped(t) && DigitGroups(t)
    ensures ParseInt(t) == if DigitCount(t) <= MaxStrDigits then Some(DigitsValue(t)) else None
  {
    assert IntStrip(t) == t;
  }

  /** `int()` of a stripped minus sign followed by a run of digits. */
  lemma ParseIntOfNegative(t: string)
    requires Stripped(t) && t != [] && t[0] == '-' && DigitGroups(t[1..])
    ensures ParseInt(t) ==
      if DigitCount(t[1..]) <= MaxStrDigits then Some(-(DigitsValue(t[1..]) as int)) else None
  {
    assert IntStrip(t) == t;
  }

  /** `str(m)` is a stripped run of digits, one digit per character, whose value is `m`. */
  lemma NatStringDigits(m: nat)
    ensures Stripped(NatToString(m)) && DigitGroups(NatToString(m))
    ensures DigitCount(NatToString(m)) == |NatToString(m)| && DigitsValue(NatToString(m)) == m
  {
    var digits := NatToString(m);
    NatToStringValue(m);
    AllDigitsGroups(digits);
    assert !IsSpace(digits[0]) && !IsSpace(digits[|digits| - 1]);
  }

  /** `int(str(m))` for a natural number `m`. */
  lemma ParseIntOfNat(m: nat, s: string)
    requires s == NatToString(m)
    ensures ParseInt(s) == if |NatToString(m)| <= MaxStrDigits then Some(m) else None
  {
    NatStringDigits(m);
    ParseIntOfDigits(s);
  }

  /** `"-" + str(m)` is stripped, and its sign is followed by the digits of `str(m)`. */
  lemma MinusStringDigits(m: nat, s: string)
    requires s == "-" + NatToString(m)
    ensures Stripped(s) && s != [] && s[0] == '-' && DigitGroups(s[1..])
    ensures DigitCount(s[1..]) == |NatToString(m)| && DigitsValue(s[1..]) == m
  {
    var digits := NatToString(m);
    NatStringDigits(m);
    assert s[1..] == digits && s[|s| - 1] == digits[|digits| - 1];
    assert !IsSpace(s[0]) && !IsSpace(s[|s| - 1]);
  }

  /** `int(str(-m))`: minus the value of `str(m)`, within the digit limit. */
  lemma ParseIntOfMinus(m: nat, s: string)
    requires s == "-" + NatToString(m)
    ensures ParseInt(s) == if |NatToString(m)| <= MaxStrDigits then Some(-(m as int)) else None
  {
    MinusStringDigits(m, s);
    ParseIntOfNegative(s);
  }

  /** `int(str(n))` for a negative `n`. */
  lemma ParseIntOfNegativeString(n: int, s: string)
    requires s == IntToString(n) && n < 0
    ensures ParseInt(s) == if |NatToString(-n)| <= MaxStrDigits then Some(n) else None
  {
    ParseIntOfMinus(-n, s);
  }

  /** `int(str(n))` for a natural `n`. */
  lemma ParseIntOfNaturalString(n: int, s: string)
    requires s == IntToString(n) && n >= 0
    ensures ParseInt(s) == if |NatToString(n)| <= MaxStrDigits then Some(n) else None
  {
    ParseIntOfNat(n, s);
  }

  /** `int(str(n)) == n` for every `n` of at most `MaxStrDigits` digits; a longer `str(n)` makes
      `int()` raise. */
  lemma ParseIntOfString(n: int)
    ensures ParseInt(IntToString(n)) ==
      if |NatToString(if n < 0 then -n else n)| <= MaxStrDigits then Some(n) else None
  {
    if n < 0 {
      ParseIntOfNegativeString(n, IntToString(n));
    } else {
      ParseIntOfNaturalString(n, IntToString(n));
    }
  }


}
