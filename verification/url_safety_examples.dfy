/** The guard on the example URLs of the repository's security script, through two general
    lemmas: how a plain `scheme://host[:port][/path]` URL splits, and its host name. */
module UrlSafetyExamples {
  import opened Wrappers
  import opened Text
  import opened Ipv4
  import opened UrlSafety

  predicate LowerLetters(s: string) {
    forall k :: 0 <= k < |s| ==> 'a' <= s[k] <= 'z'
  }

  /** Characters that play no part in splitting a network location or its host name. */
  predicate PlainHostChar(c: char) {
    c as int > 32 && c !in {'/', '?', '#', '[', ']', '@', ':', '%'} && !('A' <= c <= 'Z')
  }

  predicate PlainHost(h: string) {
    forall k :: 0 <= k < |h| ==> PlainHostChar(h[k])
  }

  /** A port suffix: empty, or a colon followed by characters that end no network location. */
  predicate PlainPort(p: string) {
    p == [] || (p[0] == ':' && forall k :: 0 <= k < |p| ==> p[k] as int > 32 && p[k] !in {'/', '?', '#', '[', ']', '@'})
  }

  predicate PlainPath(p: string) {
    (p == [] || p[0] == '/') && forall k :: 0 <= k < |p| ==> p[k] as int > 32
  }

  lemma FirstOfAt(s: string, cs: set<char>, i: nat)
    requires i <= |s|
    requires forall k :: 0 <= k < i ==> s[k] !in cs
    requires i < |s| ==> s[i] in cs
    ensures FirstOf(s, cs) == i
  {
    FirstOfIsFirst(s, cs);
  }

  lemma {:induction false} RemoveCharsAbsent(s: string, cs: set<char>)
    requires forall k :: 0 <= k < |s| ==> s[k] !in cs
    ensures RemoveChars(s, cs) == s
    decreases |s|
  {
    if s != [] {
      forall k | 0 <= k < |s| - 1 ensures s[1..][k] !in cs {
        assert s[1..][k] == s[k + 1];
      }
      RemoveCharsAbsent(s[1..], cs);
      assert s == [s[0]] + s[1..];
    }
  }

  predicate Printable(s: string) {
    forall k :: 0 <= k < |s| ==> s[k] as int > 32
  }

  lemma PrintableConcat(a: string, b: string)
    requires Printable(a) && Printable(b)
    ensures Printable(a + b)
  {
    forall k | 0 <= k < |a + b| ensures (a + b)[k] as int > 32 {
      if k < |a| { assert (a + b)[k] == a[k]; } else { assert (a + b)[k] == b[k - |a|]; }
    }
  }

  lemma PlainNetloc(host: string, port: string)
    requires PlainHost(host) && PlainPort(port)
    ensures Printable(host + port)
    ensures forall k :: 0 <= k < |host + port| ==> (host + port)[k] !in {'/', '?', '#', '[', ']', '@'}
  {
    var n := host + port;
    forall k | 0 <= k < |n| ensures n[k] as int > 32 && n[k] !in {'/', '?', '#', '[', ']', '@'} {
      if k < |host| { assert n[k] == host[k]; } else { assert n[k] == port[k - |host|]; }
    }
  }

  /** The scheme of `scheme://rest` is split off at its colon. */
  lemma SchemeSplitPlain(scheme: string, rest: string)
    requires scheme != [] && LowerLetters(scheme)
    ensures SchemeSplit(scheme + ":" + rest) == (scheme, rest)
  {
    var u := scheme + ":" + rest;
    FirstOfAt(u, {':'}, |scheme|);
    assert u[..|scheme|] == scheme && u[|scheme| + 1..] == rest;
    assert HasScheme(u, |scheme|);
    assert Lower(scheme) == scheme;
  }

  lemma NetlocOfPlain(netloc: string, path: string)
    requires forall k :: 0 <= k < |netloc| ==> netloc[k] !in {'/', '?', '#', '[', ']'}
    requires path == [] || path[0] == '/'
    ensures NetlocOf("//" + netloc + path) == Some(netloc)
  {
    var rest := "//" + netloc + path;
    assert StartsWith(rest, "//");
    assert rest[2..] == netloc + path;
    FirstOfAt(netloc + path, {'/', '?', '#'}, |netloc|);
    assert rest[2..2 + |netloc|] == netloc;
    assert '[' !in netloc && ']' !in netloc;
  }

  /** Neither the leading trim nor the removal of tab, CR and LF changes a printable URL. */
  lemma PreprocessPlain(u: string)
    requires Printable(u)
    ensures RemoveChars(TrimC0(u), {'\t', '\r', '\n'}) == u
  {
    assert TrimC0(u) == u;
    RemoveCharsAbsent(u, {'\t', '\r', '\n'});
  }

  lemma PrintablePlainUrl(scheme: string, host: string, port: string, path: string)
    requires LowerLetters(scheme)
    requires PlainHost(host) && PlainPort(port) && PlainPath(path)
    ensures Printable(scheme + ":" + ("//" + (host + port) + path))
  {
    PlainNetloc(host, port);
    assert Printable(scheme + ":" + "//");
    PrintableConcat(scheme + ":" + "//", host + port);
    PrintableConcat(scheme + ":" + "//" + (host + port), path);
    assert scheme + ":" + ("//" + (host + port) + path) == scheme + ":" + "//" + (host + port) + path;
  }

  /** `http://example.org/page` splits into its lower-case scheme and the text between `//` and
      the first `/`. */
  lemma SplitPlain(url: string, scheme: string, host: string, port: string, path: string)
    requires url == scheme + "://" + host + port + path
    requires scheme != [] && LowerLetters(scheme)
    requires PlainHost(host) && PlainPort(port) && PlainPath(path)
    ensures SplitUrl(url) == Some(UrlParts(scheme, host + port))
  {
    var rest := "//" + (host + port) + path;
    assert url == scheme + ":" + rest;
    PrintablePlainUrl(scheme, host, port, path);
    PreprocessPlain(url);
    SchemeSplitPlain(scheme, rest);
    PlainNetloc(host, port);
    NetlocOfPlain(host + port, path);
  }

  lemma AfterLastAbsent(s: string, c: char)
    requires forall k :: 0 <= k < |s| ==> s[k] != c
    ensures AfterLast(s, c) == s
  {
  }

  lemma HostOfPlain(host: string, port: string)
    requires PlainHost(host) && PlainPort(port)
    ensures HostOf(host + port) == host
  {
    var n := host + port;
    PlainNetloc(host, port);
    FirstOfAt(n, {'['}, |n|);
    assert forall k :: 0 <= k < |host| ==> n[k] == host[k];
    FirstOfAt(n, {':'}, |host|);
    assert n[..|host|] == host;
  }

  lemma LowerHostPlain(host: string)
    requires PlainHost(host)
    ensures LowerHost(host) == host && Lower(host) == host
  {
    FirstOfAt(host, {'%'}, |host|);
    assert host[..|host|] == host && host[|host|..] == [];
    assert Lower(host) == host;
  }

  /** The host name of `host:port` is the host, when it is already lower-case and plain. */
  lemma HostnamePlain(host: string, port: string)
    requires PlainHost(host) && PlainPort(port)
    ensures Hostname(host + port) == host
  {
    PlainNetloc(host, port);
    var n := host + port;
    AfterLastAbsent(n, '@');
    assert '[' !in n;
    HostOfPlain(host, port);
    LowerHostPlain(host);
  }

  /** The name checks on a plain, lower-case host name. */
  lemma ScreenHostPlain(scheme: string, host: string)
    requires PlainHost(host)
    ensures scheme !in AllowedSchemes ==> ScreenHost(scheme, host) == Failure(BadScheme)
    ensures scheme in AllowedSchemes && host == [] ==> ScreenHost(scheme, host) == Failure(NoHost)
    ensures scheme in AllowedSchemes && host in BlockedHostnames ==> ScreenHost(scheme, host) == Failure(BlockedName)
    ensures scheme in AllowedSchemes && host != [] && host !in BlockedHostnames ==> ScreenHost(scheme, host) == Success(host)
  {
    LowerHostPlain(host);
  }

  /** A plain URL reaches the resolver with its host name exactly when the scheme is allowed
      and the host is not on the blocklist. */
  lemma ScreenPlain(url: string, scheme: string, host: string, port: string, path: string)
    requires url == scheme + "://" + host + port + path
    requires scheme != [] && LowerLetters(scheme)
    requires PlainHost(host) && PlainPort(port) && PlainPath(path)
    ensures ScreenName(url) == ScreenHost(scheme, host)
  {
    SplitPlain(url, scheme, host, port, path);
    HostnamePlain(host, port);
  }

  /** `http://localhost:8080` is refused by the blocklist, whatever the resolver says. */
  lemma LocalhostRefused(dns: Dns, url: string, s: string, h: string, p: string)
    requires s == "http" && h == "localhost" && p == ":8080" && url == s + "://" + h + p + ""
    ensures Check(dns, url) == BlockedName
  {
    ScreenPlain(url, s, h, p, "");
    ScreenHostPlain(s, h);
  }

  lemma FilePlain(s: string, path: string)
    requires s == "file" && path == "/etc/passwd"
    ensures PlainPath(path) && s != [] && LowerLetters(s) && s !in AllowedSchemes
  {
  }

  /** `file:///etc/passwd` and `ftp://internal.server.com` are refused for their scheme. */
  lemma FileSchemeRefused(dns: Dns, url: string, s: string, path: string)
    requires s == "file" && path == "/etc/passwd" && url == s + "://" + "" + "" + path
    ensures Check(dns, url) == BadScheme
  {
    FilePlain(s, path);
    ScreenPlain(url, s, "", "", path);
    ScreenHostPlain(s, "");
    assert ScreenName(url) == Failure(BadScheme);
  }

  lemma FtpPlain(s: string, h: string)
    requires s == "ftp" && h == "internal.server.com"
    ensures PlainHost(h) && s != [] && LowerLetters(s) && s !in AllowedSchemes
  {
  }

  lemma FtpSchemeRefused(dns: Dns, url: string, s: string, h: string)
    requires s == "ftp" && h == "internal.server.com" && url == s + "://" + h + "" + ""
    ensures Check(dns, url) == BadScheme
  {
    FtpPlain(s, h);
    ScreenPlain(url, s, h, "", "");
    ScreenHostPlain(s, h);
    assert ScreenName(url) == Failure(BadScheme);
  }

  /** An address literal that resolves to itself in a private or loopback block is refused:
      `http://127.0.0.1:3000`, `http://192.168.1.1`, `http://10.0.0.1`, `http://172.16.0.1`. */
  lemma InternalLiteralRefused(dns: Dns, url: string, h: string, p: string, ip: Address)
    requires PlainHost(h) && h != [] && h !in BlockedHostnames && PlainPort(p)
    requires url == "http" + "://" + h + p + ""
    requires dns.resolve(h) == Some(ip)
    requires ip.a == 127 || ip.a == 10 || (ip.a == 192 && ip.b == 168) || (ip.a == 172 && 16 <= ip.b < 32)
    ensures Check(dns, url) == InternalAddress
  {
    ScreenPlain(url, "http", h, p, "");
    ScreenHostPlain("http", h);
  }

  lemma LoopbackLiteralRefused(dns: Dns, url: string, h: string, p: string)
    requires h == "127.0.0.1" && p == ":3000" && url == "http" + "://" + h + p + ""
    requires dns.resolve(h) == Some(Address(127, 0, 0, 1))
    ensures Check(dns, url) == InternalAddress
  {
    InternalLiteralRefused(dns, url, h, p, Address(127, 0, 0, 1));
  }

  /** `https://www.example.com` is accepted when the name resolves to a public address. */
  lemma ExampleComIsPlain(s: string, h: string)
    requires s == "https" && h == "www.example.com"
    ensures PlainHost(h) && h != [] && h !in BlockedHostnames
    ensures s != [] && LowerLetters(s) && s in AllowedSchemes
  {
  }

  lemma PublicHostScreened(url: string, s: string, h: string)
    requires s == "https" && h == "www.example.com" && url == s + "://" + h + "" + ""
    ensures ScreenName(url) == Success(h)
  {
    ExampleComIsPlain(s, h);
    ScreenPlain(url, s, h, "", "");
    ScreenHostPlain(s, h);
  }

  lemma PublicAddressNotInternal(ip: Address, special: Address -> bool)
    requires ip == Address(93, 184, 215, 14) && !special(ip)
    ensures !IsInternal(ip, special)
  {
  }

  lemma PublicHostAccepted(dns: Dns, url: string, s: string, h: string, ip: Address)
    requires s == "https" && h == "www.example.com" && url == s + "://" + h + "" + ""
    requires ip == Address(93, 184, 215, 14) && dns.resolve(h) == Some(ip) && !dns.specialPurpose(ip)
    ensures IsSafeUrl(dns, url)
  {
    PublicAddressNotInternal(ip, dns.specialPurpose);
    PublicHostScreened(url, s, h);
  }

  /** A bracketed plain name is printable and ends no network location. */
  lemma PlainBracketed(host: string)
    requires PlainHost(host)
    ensures Printable("[" + host + "]")
    ensures forall k :: 0 <= k < |"[" + host + "]"| ==> ("[" + host + "]")[k] !in {'/', '?', '#', '@'}
  {
    var n := "[" + host + "]";
    forall k | 0 <= k < |n| ensures n[k] as int > 32 && n[k] !in {'/', '?', '#', '@'} {
      if 0 < k < |n| - 1 { assert n[k] == host[k - 1]; }
    }
  }

  lemma NetlocOfBracketed(netloc: string, path: string)
    requires forall k :: 0 <= k < |netloc| ==> netloc[k] !in {'/', '?', '#'}
    requires netloc != [] && netloc[0] == '[' && netloc[|netloc| - 1] == ']'
    requires path == [] || path[0] == '/'
    ensures NetlocOf("//" + netloc + path) == Some(netloc)
  {
    var rest := "//" + netloc + path;
    assert StartsWith(rest, "//");
    assert rest[2..] == netloc + path;
    FirstOfAt(netloc + path, {'/', '?', '#'}, |netloc|);
    assert rest[2..2 + |netloc|] == netloc;
  }

  lemma PrintableUrl(scheme: string, netloc: string, path: string)
    requires LowerLetters(scheme) && Printable(netloc) && PlainPath(path)
    ensures Printable(scheme + ":" + ("//" + netloc + path))
  {
    assert Printable(scheme + ":" + "//");
    PrintableConcat(scheme + ":" + "//", netloc);
    PrintableConcat(scheme + ":" + "//" + netloc, path);
    assert scheme + ":" + ("//" + netloc + path) == scheme + ":" + "//" + netloc + path;
  }

  /** `http://[name]/path` splits with the brackets kept in its network location. */
  lemma SplitBracketed(url: string, scheme: string, host: string, path: string)
    requires url == scheme + "://" + ("[" + host + "]") + path
    requires scheme != [] && LowerLetters(scheme)
    requires PlainHost(host) && PlainPath(path)
    ensures SplitUrl(url) == Some(UrlParts(scheme, "[" + host + "]"))
  {
    var netloc := "[" + host + "]";
    var rest := "//" + netloc + path;
    assert url == scheme + ":" + rest;
    PlainBracketed(host);
    PrintableUrl(scheme, netloc, path);
    PreprocessPlain(url);
    SchemeSplitPlain(scheme, rest);
    NetlocOfBracketed(netloc, path);
  }

  /** The host of `[name]` is the name between the brackets. */
  lemma HostOfBracketed(host: string)
    requires PlainHost(host)
    ensures HostOf("[" + host + "]") == host
  {
    var n := "[" + host + "]";
    FirstOfAt(n, {'['}, 0);
    assert n[1..] == host + "]";
    FirstOfAt(host + "]", {']'}, |host|);
    assert (host + "]")[..|host|] == host;
  }

  /** The host name of `[name]` is that name, when it is lower-case and plain. */
  lemma HostnameBracketed(host: string)
    requires PlainHost(host)
    ensures Hostname("[" + host + "]") == host
  {
    PlainBracketed(host);
    AfterLastAbsent("[" + host + "]", '@');
    HostOfBracketed(host);
    LowerHostPlain(host);
  }

  /** A bracketed name such as the IPvFuture host of `http://[vabc.example.com]/` is handed to
      the resolver like any other host: it is accepted when it resolves to a public address and
      refused as unresolvable when `gethostbyname` fails on it. */
  lemma BracketedHostResolved(dns: Dns, url: string, h: string)
    requires url == "http" + "://" + ("[" + h + "]") + "/"
    requires PlainHost(h) && h != [] && h !in BlockedHostnames
    ensures dns.resolve(h).None? ==> Check(dns, url) == Unresolvable
    ensures dns.resolve(h).Some? && !IsInternal(dns.resolve(h).value, dns.specialPurpose) ==>
      IsSafeUrl(dns, url)
  {
    SplitBracketed(url, "http", h, "/");
    HostnameBracketed(h);
    ScreenHostPlain("http", h);
  }
}
