/** HTTP URLs: a small grammar (scheme, host, optional port, rest), the canonical form and the target a
    URL names (event/target.go:182-233; sections 3.1 to 3.3 of RFC 3986). */
module Urls {
  import opened Wrappers
  import opened Text
  import opened Decimal
  import opened Events
  import opened Hosts

  datatype Scheme = Http | Https

  /** `authority` as written, and split into host and port ("" if absent); `rest` is path, query and
      fragment, untouched. */
  datatype Url = Url(scheme: Scheme, authority: string, host: string, port: string, rest: string)

  function SchemeText(s: Scheme): string {
    match s
    case Http => "http"
    case Https => "https"
  }

  function SchemeOf(s: string): Option<Scheme> {
    if s == "http" then Some(Http) else if s == "https" then Some(Https) else None
  }

  function DefaultPort(s: Scheme): int {
    match s
    case Http => 80
    case Https => 443
  }

  // ---------------------------------------------------------------- reading

  predicate EndsAuthority(c: char) {
    c == '/' || c == '?' || c == '#'
  }

  /** Characters of a host. User information, escapes and other alphabets are not part of this grammar. */
  predicate HostChar(c: char) {
    && '!' <= c <= '~' && !EndsAuthority(c)
    && c != '@' && c != '%' && c != '\\' && c != '^' && c != '`' && c != '{' && c != '|' && c != '}'
  }

  predicate HostText(s: string) {
    forall i :: 0 <= i < |s| ==> HostChar(s[i])
  }

  function AuthorityLength(s: string): (n: nat)
    ensures n <= |s| && (n < |s| ==> EndsAuthority(s[n]))
    ensures forall i :: 0 <= i < n ==> !EndsAuthority(s[i])
  {
    if s == "" || EndsAuthority(s[0]) then 0 else 1 + AuthorityLength(s[1..])
  }

  function FirstIndex(s: string, c: char): (r: Option<nat>)
    ensures r.None? <==> c !in s
    ensures r.Some? ==> r.value < |s| && s[r.value] == c && forall i :: 0 <= i < r.value ==> s[i] != c
  {
    if s == "" then None
    else if s[0] == c then Some(0)
    else
      var r := FirstIndex(s[1..], c);
      if r.None? then None else Some(r.value + 1)
  }

  /** Nothing, or a colon and digits. */
  predicate OptionalPort(s: string) {
    s == "" || (s[0] == ':' && AllDigits(s[1..]))
  }

  function WithPort(scheme: Scheme, a: string, host: string, colonPort: string, rest: string): Option<Url> {
    if !OptionalPort(colonPort) then None
    else Some(Url(scheme, a, host, if colonPort == "" then "" else colonPort[1..], rest))
  }

  /** Brackets hold an IPv6 address; without brackets only the port has a colon in front. */
  function ParseAuthority(net: Net, scheme: Scheme, a: string, rest: string): Option<Url> {
    if !HostText(a) then None
    else if '[' in a then
      if a[0] != '[' || '[' in a[1..] || ']' !in a then None
      else
        var end := LastIndex(a, ']').value;
        if !IsSix(net, a[1..end]) then None else WithPort(scheme, a, a[1..end], a[end + 1..], rest)
    else
      var i := LastIndex(a, ':');
      if i.None? then WithPort(scheme, a, a, "", rest)
      else if ':' in a[..i.value] then None
      else WithPort(scheme, a, a[..i.value], a[i.value..], rest)
  }

  function ParseAfter(net: Net, scheme: Scheme, after: string): Option<Url> {
    var n := AuthorityLength(after);
    ParseAuthority(net, scheme, after[..n], after[n..])
  }

  predicate HasAuthority(after: string) {
    |after| >= 2 && after[0] == '/' && after[1] == '/'
  }

  /** Without an authority there is no host. */
  function ParseScheme(net: Net, scheme: Scheme, after: string): Option<Url> {
    if HasAuthority(after) then ParseAfter(net, scheme, after[2..]) else Some(Url(scheme, "", "", "", after))
  }

  /** A text with another scheme, or with none, is no HTTP URL. */
  function Parse(net: Net, s: string): Option<Url> {
    var i := FirstIndex(s, ':');
    if i.None? || SchemeOf(Lower(s[..i.value])).None? then None
    else ParseScheme(net, SchemeOf(Lower(s[..i.value])).value, s[i.value + 1..])
  }

  // ---------------------------------------------------------------- writing

  function JoinHostPort(h: string, port: string): string {
    (if ':' in h || '%' in h then Bracketed(h) else h) + (":" + port)
  }

  function AuthorityText(net: Net, h: string, port: string): string {
    if port != "" then JoinHostPort(h, port) else if IsSix(net, h) then Bracketed(h) else h
  }

  /** What follows the scheme: an empty authority is written only in front of a path. */
  function Printed(authority: string, rest: string): string {
    if authority == "" && (rest == "" || rest[0] != '/') then rest else "//" + (authority + rest)
  }

  function Print(scheme: Scheme, authority: string, rest: string): string {
    SchemeText(scheme) + (":" + Printed(authority, rest))
  }

  predicate Tls(url: string) {
    "https://" <= url
  }

  lemma TlsPrint(scheme: Scheme, a: string, rest: string)
    requires a != ""
    ensures Tls(Print(scheme, a, rest)) <==> scheme == Https
  {
    var s := Print(scheme, a, rest);
    if scheme == Https {
      assert s == "https://" + (a + rest);
    } else {
      assert s[4] == ':' && "https://"[4] == 's';
    }
  }

  predicate RestText(rest: string) {
    rest == "" || EndsAuthority(rest[0])
  }

  lemma LowerScheme(scheme: Scheme)
    ensures SchemeOf(Lower(SchemeText(scheme))) == Some(scheme) && ':' !in SchemeText(scheme)
  {
    assert Lower(SchemeText(scheme)) == SchemeText(scheme);
  }

  lemma AuthorityEndsAt(a: string, rest: string)
    requires HostText(a) && RestText(rest)
    ensures AuthorityLength(a + rest) == |a|
  {
    var s := a + rest;
    forall i | 0 <= i < |a| ensures !EndsAuthority(s[i]) { assert s[i] == a[i]; }
    assert rest != "" ==> s[|a|] == rest[0];
  }

  lemma ParseAfterPrint(net: Net, scheme: Scheme, a: string, rest: string)
    requires HostText(a) && RestText(rest)
    ensures ParseAfter(net, scheme, a + rest) == ParseAuthority(net, scheme, a, rest)
  {
    AuthorityEndsAt(a, rest);
    assert (a + rest)[..|a|] == a && (a + rest)[|a|..] == rest;
  }

  lemma FirstIs(s: string, c: char, k: nat)
    requires k < |s| && s[k] == c && c !in s[..k]
    ensures FirstIndex(s, c) == Some(k)
  {
    forall i | 0 <= i < k ensures s[i] != c { assert s[i] == s[..k][i]; }
  }

  /** Scheme and remainder come apart at the first colon. */
  lemma ColonAfter(head: string, after: string)
    requires ':' !in head
    ensures var s := head + (":" + after); FirstIndex(s, ':') == Some(|head|) && s[..|head|] == head && s[|head| + 1..] == after
  {
    var s := head + (":" + after);
    assert s[..|head|] == head && s[|head| + 1..] == after && s[|head|] == ':';
    FirstIs(s, ':', |head|);
  }

  lemma ParseSplit(net: Net, scheme: Scheme, after: string)
    ensures Parse(net, SchemeText(scheme) + (":" + after)) == ParseScheme(net, scheme, after)
  {
    LowerScheme(scheme);
    ColonAfter(SchemeText(scheme), after);
  }

  lemma ParseRemainder(net: Net, scheme: Scheme, a: string, rest: string)
    requires HostText(a) && RestText(rest)
    ensures ParseScheme(net, scheme, Printed(a, rest)) == ParseAuthority(net, scheme, a, rest)
  {
    if a == "" && (rest == "" || rest[0] != '/') {
      assert !HasAuthority(rest);
    } else {
      assert ("//" + (a + rest))[2..] == a + rest;
      ParseAfterPrint(net, scheme, a, rest);
    }
  }

  /** What is printed is read back. */
  lemma ParsePrint(net: Net, scheme: Scheme, a: string, rest: string)
    requires HostText(a) && RestText(rest)
    ensures Parse(net, Print(scheme, a, rest)) == ParseAuthority(net, scheme, a, rest)
  {
    ParseSplit(net, scheme, Printed(a, rest));
    ParseRemainder(net, scheme, a, rest);
  }

  // ---------------------------------------------------------------- reading hosts back

  lemma DigitsPlain(port: string)
    requires AllDigits(port)
    ensures ':' !in port && ']' !in port && '[' !in port && HostText(port)
  {
  }

  lemma HostTextConcat(a: string, b: string)
    requires HostText(a) && HostText(b)
    ensures HostText(a + b)
  {
  }

  /** A host outside brackets. */
  predicate Bare(h: string) {
    HostText(h) && ':' !in h && '[' !in h
  }

  /** A bare host, with or without a port. */
  lemma ParseNamed(net: Net, scheme: Scheme, h: string, port: string, rest: string)
    requires Bare(h) && AllDigits(port)
    ensures var a := if port == "" then h else h + (":" + port);
      HostText(a) && ParseAuthority(net, scheme, a, rest) == Some(Url(scheme, a, h, port, rest))
  {
    DigitsPlain(port);
    if port != "" {
      var tail := ":" + port;
      HostTextConcat(h, tail);
      assert tail[1..] == port;
      ColonTail(net, scheme, h, tail, rest);
    }
  }

  lemma ColonTail(net: Net, scheme: Scheme, h: string, tail: string, rest: string)
    requires HostText(h + tail) && ':' !in h && '[' !in h && '[' !in tail && tail != "" && tail[0] == ':' && ':' !in tail[1..]
    ensures ParseAuthority(net, scheme, h + tail, rest) == WithPort(scheme, h + tail, h, tail, rest)
  {
    var a := h + tail;
    assert a[|h| + 1..] == tail[1..] && a[..|h|] == h && a[|h|..] == tail;
    LastIs(a, ':', |h|);
  }

  /** An IPv6 address in brackets, with or without a port. */
  lemma ParseBracketed(net: Net, scheme: Scheme, h: string, port: string, rest: string)
    requires HostText(h) && '[' !in h && IsSix(net, h) && AllDigits(port)
    ensures var a := if port == "" then Bracketed(h) else Bracketed(h) + (":" + port);
      HostText(a) && ParseAuthority(net, scheme, a, rest) == Some(Url(scheme, a, h, port, rest))
  {
    DigitsPlain(port);
    if port == "" {
      assert Bracketed(h) + "" == Bracketed(h);
      BracketedWith(net, scheme, h, "", rest);
    } else {
      assert (":" + port)[1..] == port;
      BracketedWith(net, scheme, h, ":" + port, rest);
    }
  }

  lemma BracketedWith(net: Net, scheme: Scheme, h: string, tail: string, rest: string)
    requires HostText(h) && HostText(tail) && '[' !in h && '[' !in tail && ']' !in tail && IsSix(net, h)
    ensures HostText(Bracketed(h) + tail)
    ensures ParseAuthority(net, scheme, Bracketed(h) + tail, rest) == WithPort(scheme, Bracketed(h) + tail, h, tail, rest)
  {
    var a := Bracketed(h) + tail;
    assert a[|h| + 2..] == tail && a[1..|h| + 1] == h && a[|h| + 1] == ']';
    assert a[1..] == h + ([']'] + tail);
    LastIs(a, ']', |h| + 1);
    HostTextConcat(Bracketed(h), tail);
    BracketTail(net, scheme, a, |h| + 1, rest);
  }

  lemma BracketTail(net: Net, scheme: Scheme, a: string, end: nat, rest: string)
    requires HostText(a) && 0 < end < |a| && a[0] == '[' && '[' !in a[1..] && LastIndex(a, ']') == Some(end) && IsSix(net, a[1..end])
    ensures ParseAuthority(net, scheme, a, rest) == WithPort(scheme, a, a[1..end], a[end + 1..], rest)
  {
    assert '[' in a && ']' in a;
  }

  // ---------------------------------------------------------------- the canonical URL

  predicate PortInRange(port: string) {
    port == "" || (Atoi(port).Some? && 1 <= Atoi(port).value <= 65535)
  }

  function CanonURL(net: Net, s: string): Option<string> {
    var u := Parse(net, TrimSpace(s));
    if u.None? || u.value.host == "" then None
    else
      var h := CanonHost(net, u.value.host);
      if h.None? || !PortInRange(u.value.port) then None
      else Some(Print(u.value.scheme, AuthorityText(net, h.value.text, u.value.port), u.value.rest))
  }

  /** Which URLs are accepted: those with a host that is not blank, and no port or one in range. */
  lemma CanonURLIff(net: Net, s: string)
    ensures CanonURL(net, s).Some? <==>
      && Parse(net, TrimSpace(s)).Some?
      && var u := Parse(net, TrimSpace(s)).value;
         && u.host != "" && (net.parse(TrimSpace(u.host)).Some? || TrimSpace(u.host) != "")
         && (u.port == "" || (Atoi(u.port).Some? && 1 <= Atoi(u.port).value <= 65535))
  {
  }

  /** A host as it stands in a URL: an IPv6 address, or a text without colons and brackets. */
  predicate WebHost(net: Net, h: string) {
    HostText(h) && '[' !in h && (IsSix(net, h) || ':' !in h)
  }

  lemma AuthorityShape(net: Net, scheme: Scheme, a: string, rest: string)
    requires ParseAuthority(net, scheme, a, rest).Some?
    ensures var u := ParseAuthority(net, scheme, a, rest).value;
      WebHost(net, u.host) && AllDigits(u.port) && u.rest == rest && u.scheme == scheme
  {
    if '[' in a {
      var end := LastIndex(a, ']').value;
      assert forall c :: c in a[1..end] ==> c in a[1..];
    } else if LastIndex(a, ':').Some? {
      var i := LastIndex(a, ':').value;
      assert forall c :: c in a[..i] ==> c in a;
    }
  }

  lemma AfterShape(net: Net, scheme: Scheme, after: string)
    requires ParseAfter(net, scheme, after).Some?
    ensures var u := ParseAfter(net, scheme, after).value;
      && WebHost(net, u.host) && AllDigits(u.port) && RestText(u.rest)
      && (u.rest != "" ==> after != "" && after[|after| - 1] == u.rest[|u.rest| - 1])
  {
    var n := AuthorityLength(after);
    AuthorityShape(net, scheme, after[..n], after[n..]);
  }

  predicate SameEnd(s: string, rest: string) {
    rest != "" ==> s != "" && s[|s| - 1] == rest[|rest| - 1]
  }

  lemma EndOf(s: string, k: nat, rest: string)
    requires k <= |s| && SameEnd(s[k..], rest)
    ensures SameEnd(s, rest)
  {
  }

  lemma SchemeShape(net: Net, scheme: Scheme, after: string)
    requires ParseScheme(net, scheme, after).Some? && ParseScheme(net, scheme, after).value.host != ""
    ensures var u := ParseScheme(net, scheme, after).value;
      WebHost(net, u.host) && AllDigits(u.port) && RestText(u.rest) && SameEnd(after, u.rest)
  {
    AfterShape(net, scheme, after[2..]);
    EndOf(after, 2, ParseScheme(net, scheme, after).value.rest);
  }

  /** The parts of a URL with a host. */
  lemma ParseShape(net: Net, s: string)
    requires Parse(net, s).Some? && Parse(net, s).value.host != ""
    ensures var u := Parse(net, s).value; WebHost(net, u.host) && AllDigits(u.port) && RestText(u.rest) && SameEnd(s, u.rest)
  {
    var i := FirstIndex(s, ':').value;
    SchemeShape(net, SchemeOf(Lower(s[..i])).value, s[i + 1..]);
    EndOf(s, i + 1, Parse(net, s).value.rest);
  }

  lemma AddrText(net: Net, t: string)
    requires Lawful(net) && net.parse(t) == Some(t) && '%' !in t
    ensures HostText(t) && t != "" && '[' !in t && (':' in t <==> net.six(t)) && WebHost(net, t)
  {
    assert ParsedFits(net, t, t);
    forall i | 0 <= i < |t| ensures AddrChar(t[i]) {
      assert forall c :: c in t[..i + 1] ==> c in t;
    }
  }

  lemma TextTrimmed(t: string)
    requires HostText(t)
    ensures Trimmed(t) && TrimSpace(t) == t
  {
    TrimSpaceTrims(t);
  }

  /** The canonical text of a URL's host is again one. */
  lemma CanonWebHost(net: Net, host: string)
    requires Lawful(net) && WebHost(net, host) && host != ""
    ensures CanonHost(net, host).Some?
    ensures var h := CanonHost(net, host).value;
      && WebHost(net, h.text) && h.ip == net.parse(host).Some?
      && (h.ip ==> net.parse(h.text) == Some(h.text)) && (!h.ip ==> h.text == CanonFQDN(host) && Bare(h.text))
  {
    TextTrimmed(host);
    if net.parse(host).Some? {
      var t := net.parse(host).value;
      assert ParsedFits(net, host, t);
      assert '%' in t ==> AddrChar('%') || '%' in host;
      AddrText(net, t);
    } else {
      LowerText(DropDot(host));
      assert forall c :: c in DropDot(host) ==> c in host;
    }
  }

  lemma LowerText(s: string)
    requires HostText(s)
    ensures HostText(Lower(s)) && (':' in Lower(s) <==> ':' in s) && ('[' in Lower(s) <==> '[' in s)
  {
    var r := Lower(s);
    forall i | 0 <= i < |s| ensures HostChar(r[i]) && (r[i] == ':' <==> s[i] == ':') && (r[i] == '[' <==> s[i] == '[') {}
    if ':' in s { var i :| 0 <= i < |s| && s[i] == ':'; assert r[i] == ':'; }
    if '[' in s { var i :| 0 <= i < |s| && s[i] == '['; assert r[i] == '['; }
  }

  /** The canonical text of such a host reads back as that host. */
  lemma ParseCanonical(net: Net, scheme: Scheme, h: string, port: string, rest: string)
    requires Lawful(net) && WebHost(net, h) && AllDigits(port)
    ensures var a := AuthorityText(net, h, port);
      HostText(a) && ParseAuthority(net, scheme, a, rest) == Some(Url(scheme, a, h, port, rest))
  {
    if IsSix(net, h) {
      assert ParsedFits(net, h, net.parse(h).value);
      ParseBracketed(net, scheme, h, port, rest);
    } else {
      ParseNamed(net, scheme, h, port, rest);
    }
  }

  lemma PrintTrimmed(scheme: Scheme, a: string, rest: string)
    requires HostText(a) && (rest != "" ==> !IsSpace(rest[|rest| - 1]))
    ensures Trimmed(Print(scheme, a, rest))
  {
    var s := Print(scheme, a, rest);
    assert s[0] == SchemeText(scheme)[0] == 'h';
    if rest != "" {
      assert s[|s| - 1] == rest[|rest| - 1];
    } else if a != "" {
      assert s[|s| - 1] == a[|a| - 1];
    } else {
      assert s[|s| - 1] == ':';
    }
  }

  /** `v` is trimmed and reads as this URL. */
  predicate Reads(net: Net, v: string, scheme: Scheme, h: string, port: string, rest: string) {
    TrimSpace(v) == v && Parse(net, v) == Some(Url(scheme, AuthorityText(net, h, port), h, port, rest))
  }

  lemma PrintReads(net: Net, scheme: Scheme, h: string, port: string, rest: string)
    requires Lawful(net) && WebHost(net, h) && AllDigits(port) && RestText(rest) && (rest != "" ==> !IsSpace(rest[|rest| - 1]))
    ensures Reads(net, Print(scheme, AuthorityText(net, h, port), rest), scheme, h, port, rest)
  {
    ParseCanonical(net, scheme, h, port, rest);
    var a := AuthorityText(net, h, port);
    ParsePrint(net, scheme, a, rest);
    PrintTrimmed(scheme, a, rest);
    TrimSpaceTrims(Print(scheme, a, rest));
  }

  /** The parts of an accepted URL. */
  predicate Accepted(net: Net, s: string, u: Url, h: Host) {
    && Parse(net, TrimSpace(s)) == Some(u) && u.host != "" && WebHost(net, u.host) && CanonHost(net, u.host) == Some(h)
    && AllDigits(u.port) && PortInRange(u.port) && RestText(u.rest) && (u.rest != "" ==> !IsSpace(u.rest[|u.rest| - 1]))
    && CanonURL(net, s) == Some(Print(u.scheme, AuthorityText(net, h.text, u.port), u.rest))
  }

  lemma AcceptedParts(net: Net, s: string)
    requires Lawful(net) && CanonURL(net, s).Some?
    ensures Parse(net, TrimSpace(s)).Some?
    ensures var u := Parse(net, TrimSpace(s)).value; CanonHost(net, u.host).Some? && Accepted(net, s, u, CanonHost(net, u.host).value)
  {
    ParseShape(net, TrimSpace(s));
    TrimSpaceTrims(s);
  }

  /** The canonical URL reads back as the same scheme, canonical host, port and rest. */
  lemma CanonURLReads(net: Net, s: string)
    requires Lawful(net) && CanonURL(net, s).Some?
    ensures Parse(net, TrimSpace(s)).Some? && CanonHost(net, Parse(net, TrimSpace(s)).value.host).Some?
    ensures var u := Parse(net, TrimSpace(s)).value;
      Reads(net, CanonURL(net, s).value, u.scheme, CanonHost(net, u.host).value.text, u.port, u.rest)
  {
    AcceptedParts(net, s);
    var u := Parse(net, TrimSpace(s)).value;
    CanonWebHost(net, u.host);
    PrintReads(net, u.scheme, CanonHost(net, u.host).value.text, u.port, u.rest);
  }

  // ---------------------------------------------------------------- when one call is enough

  /** The host of a URL is an address, or a name that is not just a dot and does not end in two dots. */
  predicate SteadyHost(net: Net, host: string) {
    net.parse(host).Some? || (CanonFQDN(host) != "" && Settled(host))
  }

  lemma CanonWebHostAgain(net: Net, host: string)
    requires Lawful(net) && WebHost(net, host) && host != ""
    ensures CanonHost(net, host).Some?
    ensures var t := CanonHost(net, host).value.text;
      (t != "" && CanonHost(net, t).Some? && CanonHost(net, t).value.text == t) <==> SteadyHost(net, host)
  {
    CanonWebHost(net, host);
    var h := CanonHost(net, host).value;
    TextTrimmed(h.text);
    if !h.ip && h.text != "" {
      CanonFQDNSettled(host);
      if net.parse(h.text).Some? { AddressSettles(net, host); }
    }
  }

  /** A name that is an address in canonical form does not end in a dot. */
  lemma AddressSettles(net: Net, host: string)
    requires Lawful(net) && HostText(host) && Bare(CanonFQDN(host)) && net.parse(CanonFQDN(host)).Some?
    ensures Settled(host) && CanonHost(net, CanonFQDN(host)) == Some(Host(CanonFQDN(host), true))
  {
    var r := CanonFQDN(host);
    TextTrimmed(host);
    TextTrimmed(r);
    assert ParsedFits(net, r, net.parse(r).value);
  }

  /** The canonical form of a text that reads as these parts. */
  lemma CanonOfRead(net: Net, v: string, scheme: Scheme, h: string, port: string, rest: string)
    requires Reads(net, v, scheme, h, port, rest) && PortInRange(port)
    ensures CanonURL(net, v) == if h == "" || CanonHost(net, h).None? then None
                                else Some(Print(scheme, AuthorityText(net, CanonHost(net, h).value.text, port), rest))
  {
  }

  lemma SteadyText(net: Net, v: string, u: Url, h: string)
    requires Lawful(net) && WebHost(net, h) && PortInRange(u.port) && AllDigits(u.port) && RestText(u.rest)
    requires u.rest != "" ==> !IsSpace(u.rest[|u.rest| - 1])
    requires v == Print(u.scheme, AuthorityText(net, h, u.port), u.rest) && Reads(net, v, u.scheme, h, u.port, u.rest)
    ensures CanonURL(net, v) == Some(v) <==> h != "" && CanonHost(net, h).Some? && CanonHost(net, h).value.text == h
  {
    CanonOfRead(net, v, u.scheme, h, u.port, u.rest);
    if h != "" && CanonHost(net, h).Some? {
      CanonWebHost(net, h);
      SamePrint(net, u, CanonHost(net, h).value.text, h);
    }
  }

  /** Different hosts print differently. */
  lemma SamePrint(net: Net, u: Url, h: string, h': string)
    requires Lawful(net) && WebHost(net, h) && WebHost(net, h') && AllDigits(u.port) && RestText(u.rest)
    requires u.rest != "" ==> !IsSpace(u.rest[|u.rest| - 1])
    ensures Print(u.scheme, AuthorityText(net, h, u.port), u.rest) == Print(u.scheme, AuthorityText(net, h', u.port), u.rest) <==> h == h'
  {
    PrintReads(net, u.scheme, h, u.port, u.rest);
    PrintReads(net, u.scheme, h', u.port, u.rest);
  }

  /** CanonURL's result is its own canonical form exactly for steady hosts. */
  lemma CanonURLSettles(net: Net, s: string)
    requires Lawful(net) && CanonURL(net, s).Some?
    ensures Parse(net, TrimSpace(s)).Some?
    ensures CanonURL(net, CanonURL(net, s).value) == CanonURL(net, s) <==> SteadyHost(net, Parse(net, TrimSpace(s)).value.host)
  {
    AcceptedParts(net, s);
    CanonURLReads(net, s);
    var u := Parse(net, TrimSpace(s)).value;
    CanonWebHost(net, u.host);
    CanonWebHostAgain(net, u.host);
    SteadyText(net, CanonURL(net, s).value, u, CanonHost(net, u.host).value.text);
  }

  // ---------------------------------------------------------------- the target of a URL

  function PortNumber(u: Url): int
  {
    if u.port != "" && Atoi(u.port).Some? then Atoi(u.port).value else DefaultPort(u.scheme)
  }

  /** URLTarget: the authority the URL names, with no guess at an address. */
  function URLTarget(net: Net, raw: string): Option<Target> {
    var v := CanonURL(net, raw);
    if v.None? || Parse(net, v.value).None? then None
    else
      var u := Parse(net, v.value).value;
      var t := NO_TARGET.(url := v.value, proto := TCP, port := PortNumber(u), httpHost := u.authority);
      var ip := CanonIP(net, u.host);
      if ip.Some? then Some(t.(host := ip.value))
      else
        var name := CanonFQDN(u.host);
        Some(t.(name := name, nameRole := NAME_REQUESTED, sni := if u.scheme == Https then name else ""))
  }

  /** Every URL that CanonURL accepts names a target: parsing its canonical text again cannot fail. */
  lemma URLTargetIff(net: Net, raw: string)
    requires Lawful(net)
    ensures URLTarget(net, raw).Some? <==> CanonURL(net, raw).Some?
  {
    if CanonURL(net, raw).Some? { CanonURLReads(net, raw); }
  }

  /** What a URL names: its canonical host, as an address or as a requested name, and its port, written or
      implied by the scheme. */
  lemma URLTargetNames(net: Net, raw: string)
    requires Lawful(net) && CanonURL(net, raw).Some?
    ensures URLTarget(net, raw).Some? && Parse(net, TrimSpace(raw)).Some?
    ensures var u := Parse(net, TrimSpace(raw)).value; var h := CanonHost(net, u.host).value.text; var t := URLTarget(net, raw).value;
      && t.url == CanonURL(net, raw).value && t.proto == TCP && 1 <= t.port <= 65535
      && t.port == (if u.port != "" then Atoi(u.port).value else if u.scheme == Https then 443 else 80)
      && t.httpHost == AuthorityText(net, h, u.port)
      && (if net.parse(h).Some? then t.host == h && t.name == "" && t.nameRole == "" && t.sni == ""
          else t.host == "" && t.name == CanonFQDN(h) && t.nameRole == NAME_REQUESTED
               && t.sni == (if u.scheme == Https then t.name else ""))
  {
    AcceptedParts(net, raw);
    CanonURLReads(net, raw);
    var u := Parse(net, TrimSpace(raw)).value;
    CanonWebHost(net, u.host);
    var h := CanonHost(net, u.host).value;
    TextTrimmed(h.text);
    if net.parse(h.text).Some? { assert ParsedFits(net, h.text, net.parse(h.text).value); }
    NamesFrom(net, raw, u, h.text);
  }

  lemma NamesFrom(net: Net, raw: string, u: Url, h: string)
    requires CanonURL(net, raw).Some? && Reads(net, CanonURL(net, raw).value, u.scheme, h, u.port, u.rest) && PortInRange(u.port)
    requires TrimSpace(h) == h && (net.parse(h).Some? ==> net.parse(h) == Some(h))
    ensures URLTarget(net, raw).Some?
    ensures var t := URLTarget(net, raw).value;
      && t.url == CanonURL(net, raw).value && t.proto == TCP && 1 <= t.port <= 65535
      && t.port == (if u.port != "" then Atoi(u.port).value else if u.scheme == Https then 443 else 80)
      && t.httpHost == AuthorityText(net, h, u.port)
      && (if net.parse(h).Some? then t.host == h && t.name == "" && t.nameRole == "" && t.sni == ""
          else t.host == "" && t.name == CanonFQDN(h) && t.nameRole == NAME_REQUESTED
               && t.sni == (if u.scheme == Https then t.name else ""))
  {
  }
}
