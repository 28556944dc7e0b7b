/** The SSRF guard `is_safe_url`: split the URL, check scheme and host name, resolve the host,
    and refuse internal addresses. Every failure refuses (fail closed). */
module UrlSafety {
  import opened Wrappers
  import opened Text
  import opened Ipv4

  /** The resolver (`socket.gethostbyname`, `None` for any failure) and the special-purpose
      address blocks of the running Python release. */
  datatype Dns = Dns(resolve: string -> Option<Address>, specialPurpose: Address -> bool)

  /** The two components of `urllib.parse.urlsplit` the guard reads. */
  datatype UrlParts = UrlParts(scheme: string, netloc: string)

  /** Why a URL was refused, or `Safe`; the first failing check in the order `is_safe_url` makes them. */
  datatype Verdict =
    | Unparsable      // urlsplit raised ValueError
    | BadScheme       // scheme other than http or https
    | NoHost          // parsed.hostname is None
    | BlockedName     // a known internal or metadata host name
    | Unresolvable    // gethostbyname failed
    | InternalAddress // private, loopback or link-local address
    | Safe

  const AllowedSchemes: set<string> := {"http", "https"}
  const BlockedHostnames: set<string> := {"localhost", "metadata.google.internal", "169.254.169.254", "metadata"}

  predicate IsAsciiLetter(c: char) {
    ('a' <= c <= 'z') || ('A' <= c <= 'Z')
  }

  /** `urllib.parse.scheme_chars`. */
  predicate IsSchemeChar(c: char) {
    IsAsciiLetter(c) || IsDigit(c) || c == '+' || c == '-' || c == '.'
  }

  /** Index of the first character of `s` in `cs`, or `|s|` when there is none. */
  function FirstOf(s: string, cs: set<char>): (i: nat)
    ensures i <= |s|
    ensures i < |s| ==> s[i] in cs
    decreases |s|
  {
    if s == [] || s[0] in cs then 0 else 1 + FirstOf(s[1..], cs)
  }

  /** No character before `FirstOf(s, cs)` is in `cs`. */
  lemma {:induction false} FirstOfIsFirst(s: string, cs: set<char>)
    ensures forall k :: 0 <= k < FirstOf(s, cs) ==> s[k] !in cs
    decreases |s|
  {
    if s != [] && s[0] !in cs {
      FirstOfIsFirst(s[1..], cs);
      forall k | 0 <= k < FirstOf(s, cs) ensures s[k] !in cs {
        if k > 0 { assert s[k] == s[1..][k - 1]; }
      }
    }
  }

  /** The text after the last `c` (all of `s` when there is none): `s.rpartition(c)[2]`. */
  function AfterLast(s: string, c: char): (r: string)
    ensures |r| <= |s| && r == s[|s| - |r|..]
    ensures |r| < |s| ==> s[|s| - |r| - 1] == c
    decreases |s|
  {
    if s == [] || s[|s| - 1] == c then [] else AfterLast(s[..|s| - 1], c) + [s[|s| - 1]]
  }

  /** `s` without any character of `cs`. */
  function RemoveChars(s: string, cs: set<char>): (r: string)
    ensures |r| <= |s|
    decreases |s|
  {
    if s == [] then [] else (if s[0] in cs then [] else [s[0]]) + RemoveChars(s[1..], cs)
  }

  /** `s.lstrip()` of the WHATWG "C0 control or space" characters, code points 0 to 32. */
  function TrimC0(s: string): (r: string)
    ensures |r| <= |s| && r == s[|s| - |r|..]
    ensures r == [] || r[0] as int > 32
    decreases |s|
  {
    if s != [] && s[0] as int <= 32 then TrimC0(s[1..]) else s
  }

  /** The scheme prefix is taken when a colon follows a non-empty run of scheme characters that
      starts with an ASCII letter. */
  predicate HasScheme(u: string, i: nat) {
    0 < i < |u| && IsAsciiLetter(u[0]) && forall k :: 0 <= k < i ==> IsSchemeChar(u[k])
  }

  /** `urlsplit(url)` restricted to scheme and network location; `None` where it raises
      `ValueError` for an unbalanced bracket in the network location. */
  function SplitUrl(url: string): Option<UrlParts> {
    var u := RemoveChars(TrimC0(url), {'\t', '\r', '\n'});
    match NetlocOf(SchemeSplit(u).1)
    case None => None
    case Some(netloc) => Some(UrlParts(SchemeSplit(u).0, netloc))
  }

  /** The lower-cased scheme and the text after its colon, or no scheme and all of `u`. */
  function SchemeSplit(u: string): (string, string) {
    var i := FirstOf(u, {':'});
    if HasScheme(u, i) then (Lower(u[..i]), u[i + 1..]) else ("", u)
  }

  /** The network location: after a leading `//`, up to the first `/`, `?` or `#`. */
  function NetlocOf(rest: string): Option<string> {
    if StartsWith(rest, "//") then
      var netloc := rest[2..2 + FirstOf(rest[2..], {'/', '?', '#'})];
      if ('[' in netloc) != (']' in netloc) then None else Some(netloc)
    else Some("")
  }

  /** `parsed.hostname`: after the last `@`; inside the brackets when there are any, otherwise
      before the first `:`; lower-cased up to a `%` zone suffix. "" stands for `None`. */
  function Hostname(netloc: string): string {
    LowerHost(HostOf(AfterLast(netloc, '@')))
  }

  /** The host of the text after the last `@`: inside the brackets, or before the port. */
  function HostOf(hostinfo: string): string {
    var open := FirstOf(hostinfo, {'['});
    if open < |hostinfo| then
      var bracketed := hostinfo[open + 1..];
      bracketed[..FirstOf(bracketed, {']'})]
    else hostinfo[..FirstOf(hostinfo, {':'})]
  }

  /** Lower-case a host name, keeping an IPv6 zone suffix from `%` on as it is. */
  function LowerHost(host: string): string {
    var p := FirstOf(host, {'%'});
    Lower(host[..p]) + host[p..]
  }

  /** The checks that need no resolver, in the order of `is_safe_url`: the host name to resolve when
      they all pass, otherwise the reason for refusing. A bracketed host is screened like any
      other, by the text inside its brackets; whether it resolves is the resolver's answer. */
  function ScreenName(url: string): (r: Result<string, Verdict>)
    ensures r.Failure? ==> r.error != Safe
  {
    match SplitUrl(url)
    case None => Failure(Unparsable)
    case Some(parts) => ScreenParts(parts)
  }

  /** The name checks on the components of a URL that split. */
  function ScreenParts(parts: UrlParts): (r: Result<string, Verdict>)
    ensures r.Failure? ==> r.error != Safe
  {
    ScreenHost(parts.scheme, Hostname(parts.netloc))
  }

  /** The name checks on a scheme and a host name, in the order of `is_safe_url`. */
  function ScreenHost(scheme: string, host: string): (r: Result<string, Verdict>)
    ensures r.Failure? ==> r.error != Safe
  {
    if scheme !in AllowedSchemes then Failure(BadScheme)
    else if host == [] then Failure(NoHost)
    else if Lower(host) in BlockedHostnames then Failure(BlockedName)
    else Success(host)
  }

  /** `is_safe_url`, with the reason for a refusal. */
  function Check(dns: Dns, url: string): Verdict {
    Decide(dns, ScreenName(url))
  }

  /** The verdict once the name checks are done: refuse for their reason, or resolve. */
  function Decide(dns: Dns, screened: Result<string, Verdict>): Verdict {
    match screened
    case Failure(v) => v
    case Success(host) =>
      match dns.resolve(host)
      case None => Unresolvable
      case Some(ip) => if IsInternal(ip, dns.specialPurpose) then InternalAddress else Safe
  }

  /** Resolution is the last step: a screened host is accepted exactly when it resolves to an
      address in none of the refused CIDR blocks. */
  lemma DecideSafeIff(dns: Dns, screened: Result<string, Verdict>)
    requires screened.Failure? ==> screened.error != Safe
    ensures Decide(dns, screened) == Safe <==>
      && screened.Success?
      && dns.resolve(screened.value).Some?
      && var ip := dns.resolve(screened.value).value;
      && !InBlock(ip, Address(10, 0, 0, 0), 8)
      && !InBlock(ip, Address(172, 16, 0, 0), 12)
      && !InBlock(ip, Address(192, 168, 0, 0), 16)
      && !InBlock(ip, Address(127, 0, 0, 0), 8)
      && !InBlock(ip, Address(169, 254, 0, 0), 16)
      && !dns.specialPurpose(ip)
  {
    if screened.Success? && dns.resolve(screened.value).Some? {
      InternalByBlocks(dns.resolve(screened.value).value, dns.specialPurpose);
    }
  }

  predicate IsSafeUrl(dns: Dns, url: string) {
    Check(dns, url) == Safe
  }

  /** The name checks pass exactly for a URL that splits, has scheme `http` or `https`, and has
      a host name that is present and not on the blocklist. */
  lemma ScreenNameIff(url: string, host: string)
    ensures ScreenName(url) == Success(host) <==>
      && SplitUrl(url).Some?
      && SplitUrl(url).value.scheme in AllowedSchemes
      && host == Hostname(SplitUrl(url).value.netloc)
      && host != []
      && Lower(host) !in BlockedHostnames
  {
    match SplitUrl(url)
    case None =>
    case Some(parts) =>
      var h := Hostname(parts.netloc);
      if ScreenName(url) == Success(host) {
        assert parts.scheme in AllowedSchemes && h == host && h != [];
      }
  }

  /** `is_safe_url(url)` holds exactly when the name checks pass, the host resolves, and the
      address lies in none of the refused CIDR blocks. */
  lemma SafeIff(dns: Dns, url: string)
    ensures IsSafeUrl(dns, url) <==>
      && ScreenName(url).Success?
      && dns.resolve(ScreenName(url).value).Some?
      && var ip := dns.resolve(ScreenName(url).value).value;
      && !InBlock(ip, Address(10, 0, 0, 0), 8)
      && !InBlock(ip, Address(172, 16, 0, 0), 12)
      && !InBlock(ip, Address(192, 168, 0, 0), 16)
      && !InBlock(ip, Address(127, 0, 0, 0), 8)
      && !InBlock(ip, Address(169, 254, 0, 0), 16)
      && !dns.specialPurpose(ip)
  {
    DecideSafeIff(dns, ScreenName(url));
  }

  /** The resolver is consulted only after the name checks pass: a URL they refuse is refused
      for that reason whatever the resolver would answer. */
  lemma NoLookupBeforeNameChecks(dns: Dns, url: string)
    requires ScreenName(url).Failure?
    ensures Check(dns, url) == ScreenName(url).error
    ensures !IsSafeUrl(dns, url)
  {
    var screened := ScreenName(url);
    assert Check(dns, url) == screened.error;
    assert screened.error != Safe;
  }

  /** A resolution failure always refuses (fail closed). */
  lemma ResolutionFailureRefuses(dns: Dns, url: string)
    requires ScreenName(url).Success? && dns.resolve(ScreenName(url).value).None?
    ensures Check(dns, url) == Unresolvable
  {
  }

  /** With Python's table of special-purpose blocks, a host that resolves into the shared
      address space 100.64.0.0/10 passes the guard. */
  lemma SharedAddressSpaceAccepted(dns: Dns, url: string)
    requires forall ip :: dns.specialPurpose(ip) == PythonSpecial(ip)
    requires ScreenName(url).Success? && dns.resolve(ScreenName(url).value).Some?
    requires dns.resolve(ScreenName(url).value).value.a == 100
    requires 64 <= dns.resolve(ScreenName(url).value).value.b < 128
    ensures IsSafeUrl(dns, url)
  {
    SharedAddressSpaceNotInternal(dns.resolve(ScreenName(url).value).value);
  }
}
