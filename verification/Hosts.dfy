/** Host names, addresses and host:port values (event/event.go:60-132). */
module Hosts {
  import opened Wrappers
  import opened Text
  import opened Decimal

  /** netip's parsers, as the code uses them: ParseAddr followed by String, Is6 of a parsed text, and
      ParsePrefix followed by Masked and String. */
  datatype Net = Net(parse: string -> Option<string>, six: string -> bool, mask: string -> Option<string>)

  predicate AddrChar(c: char) {
    IsDigit(c) || 'a' <= c <= 'f' || c == ':' || c == '.'
  }

  /** What the project assumes of them: printing is canonical, an IPv4 text is its own canonical form and
      has no colon, and only the zone of an IPv6 address, taken from the text, has other characters. */
  ghost predicate Lawful(net: Net) {
    && net.parse("") == None
    && (forall s {:trigger net.parse(s)} :: net.parse(s).Some? ==> ParsedFits(net, s, net.parse(s).value))
    && (forall s {:trigger net.mask(s)} :: net.mask(s).Some? ==> Trimmed(net.mask(s).value) && net.mask(net.mask(s).value) == net.mask(s))
  }

  predicate ParsedFits(net: Net, s: string, t: string) {
    && net.parse(t) == Some(t)
    && t != "" && t[0] != '['
    && (net.six(t) <==> ':' in t) && (net.six(t) ==> ':' in s)
    && (!net.six(t) ==> t == s)
    && (if '%' in t then net.six(t) else t[|t| - 1] != '.')
    && (Trimmed(s) ==> Trimmed(t))
    && (forall c :: c in t ==> AddrChar(c) || c in s)
    && (forall i :: 0 <= i < |t| ==> AddrChar(t[i]) || '%' in t[..i + 1])
  }

  // ---------------------------------------------------------------- names

  function LowerChar(c: char): char {
    if 'A' <= c <= 'Z' then (c as int + 32) as char else c
  }

  function Lower(s: string): (r: string)
    ensures |r| == |s| && forall i :: 0 <= i < |s| ==> r[i] == LowerChar(s[i])
  {
    seq(|s|, i requires 0 <= i < |s| => LowerChar(s[i]))
  }

  function DropDot(s: string): string {
    if s != "" && s[|s| - 1] == '.' then s[..|s| - 1] else s
  }

  /** CanonFQDN: trim, drop one trailing dot, lower case. */
  function CanonFQDN(s: string): string {
    Lower(DropDot(TrimSpace(s)))
  }

  /** No second dot, and no space before the dot. */
  predicate Settled(s: string) {
    var t := DropDot(TrimSpace(s));
    t == "" || (t[|t| - 1] != '.' && !IsSpace(t[|t| - 1]))
  }

  lemma LowerLower(s: string)
    ensures Lower(Lower(s)) == Lower(s)
  {
  }

  lemma TrimmedParts(s: string)
    ensures Trimmed(TrimSpace(s))
    ensures var t := DropDot(TrimSpace(s)); t != "" ==> !IsSpace(t[0])
  {
    TrimSpaceTrims(s);
  }

  /** CanonFQDN reaches its fixed point in one call exactly when the text does not end in two dots, or in
      a space and a dot. */
  lemma CanonFQDNSettled(s: string)
    ensures CanonFQDN(CanonFQDN(s)) == CanonFQDN(s) <==> Settled(s)
  {
    TrimmedParts(s);
    var t := DropDot(TrimSpace(s));
    var r := Lower(t);
    TrimSpaceTrims(r);
    LowerLower(t);
    if Settled(s) {
      assert Trimmed(r);
      assert DropDot(r) == r;
    } else {
      assert r != "";
      Shorter(r);
    }
  }

  /** A text that is not trimmed, or ends in a dot, gets shorter. */
  lemma Shorter(r: string)
    requires r != "" && (r[|r| - 1] == '.' || IsSpace(r[|r| - 1]))
    ensures |CanonFQDN(r)| < |r|
  {
    TrimSpaceTrims(r);
    var k := TrimLeftEnd(r);
    var m := TrimRightEnd(r[k..]);
    assert TrimSpace(r) == r[k..k + m];
    if IsSpace(r[|r| - 1]) {
      assert m > 0 ==> !IsSpace(r[k + m - 1]);
    }
  }

  lemma TwoDots()
    ensures CanonFQDN("a..") == "a." && CanonFQDN("a.") == "a"
  {
    assert Trimmed("a..") && Trimmed("a.");
    TrimSpaceTrims("a..");
    TrimSpaceTrims("a.");
  }

  // ---------------------------------------------------------------- hosts

  function CanonIP(net: Net, s: string): Option<string> {
    net.parse(TrimSpace(s))
  }

  datatype Host = Host(text: string, ip: bool)

  function CanonHost(net: Net, s: string): Option<Host> {
    var t := TrimSpace(s);
    if net.parse(t).Some? then Some(Host(net.parse(t).value, true))
    else if t == "" then None
    else Some(Host(CanonFQDN(t), false))
  }

  predicate IsSix(net: Net, s: string) {
    net.parse(s).Some? && net.six(net.parse(s).value)
  }

  /** PortValue: IPv6 addresses in brackets. */
  function PortValue(net: Net, host: string, port: int): Option<string> {
    if port < 1 || port > 65535 then None
    else
      var h := CanonHost(net, host);
      if h.None? then None else Some(PortText(net, h.value, port))
  }

  function PortText(net: Net, h: Host, port: int): string {
    (if h.ip && IsSix(net, h.text) then Bracketed(h.text) else h.text) + (":" + Itoa(port))
  }

  // ---------------------------------------------------------------- splitting

  function LastIndex(s: string, c: char): (r: Option<nat>)
    ensures r.None? <==> c !in s
    ensures r.Some? ==> r.value < |s| && s[r.value] == c && forall i :: r.value < i < |s| ==> s[i] != c
  {
    if s == "" then None
    else if s[|s| - 1] == c then Some(|s| - 1)
    else LastIndex(s[..|s| - 1], c)
  }

  datatype Endpoint = Endpoint(host: string, port: int)

  function SplitHostPort(value: string): Option<Endpoint> {
    if value != "" && value[0] == '[' then
      var end := LastIndex(value, ']');
      if end.None? then None
      else SplitRest(value[1..end.value], value[end.value + 1..])
    else
      var i := LastIndex(value, ':');
      if i.None? then None
      else SplitPort(value[..i.value], value[i.value + 1..])
  }

  function SplitRest(host: string, rest: string): Option<Endpoint> {
    if rest == "" || rest[0] != ':' then None else SplitPort(host, rest[1..])
  }

  function SplitPort(host: string, port: string): Option<Endpoint> {
    if Atoi(port).Some? then Some(Endpoint(host, Atoi(port).value)) else None
  }

  lemma PortDigits(port: int)
    requires 1 <= port <= 65535
    ensures Atoi(Itoa(port)) == Some(port) && AllDigits(Itoa(port))
    ensures ':' !in Itoa(port) && ']' !in Itoa(port)
  {
    AtoiItoa(port);
    ItoaNonempty(port);
  }

  /** The last index is the only position with that character and none after it. */
  lemma LastIs(s: string, c: char, k: nat)
    requires k < |s| && s[k] == c && c !in s[k + 1..]
    ensures LastIndex(s, c) == Some(k)
  {
    forall i | k < i < |s| ensures s[i] != c { assert s[i] == s[k + 1..][i - k - 1]; }
  }

  lemma SplitPlainAt(s: string, k: nat)
    requires k < |s| && s[k] == ':' && ':' !in s[k + 1..] && s[0] != '['
    ensures SplitHostPort(s) == SplitPort(s[..k], s[k + 1..])
  {
    LastIs(s, ':', k);
  }

  lemma SplitPlain(h: string, port: int)
    requires 1 <= port <= 65535 && (h == "" || h[0] != '[')
    ensures SplitHostPort(h + (":" + Itoa(port))) == Some(Endpoint(h, port))
  {
    PortDigits(port);
    var tail := ":" + Itoa(port);
    var s := h + tail;
    assert s[..|h|] == h && s[|h| + 1..] == tail[1..] == Itoa(port);
    SplitPlainAt(s, |h|);
  }

  lemma SplitBracketAt(s: string, end: nat)
    requires 0 < end < |s| && s[0] == '[' && s[end] == ']' && ']' !in s[end + 1..]
    ensures SplitHostPort(s) == SplitRest(s[1..end], s[end + 1..])
  {
    LastIs(s, ']', end);
  }

  function Bracketed(h: string): string {
    ['['] + h + [']']
  }

  lemma SplitBracketed(h: string, port: int)
    requires 1 <= port <= 65535
    ensures SplitHostPort(Bracketed(h) + (":" + Itoa(port))) == Some(Endpoint(h, port))
  {
    PortDigits(port);
    var tail := ":" + Itoa(port);
    var s := Bracketed(h) + tail;
    assert s[1..|h| + 1] == h && s[|h| + 2..] == tail && tail[1..] == Itoa(port);
    SplitBracketAt(s, |h| + 1);
  }

  /** A name in front of the port that starts with a bracket cannot be split off again. */
  lemma SplitMisread(h: string, port: int)
    requires 1 <= port <= 65535 && h != "" && h[0] == '['
    ensures SplitHostPort(h + (":" + Itoa(port))) != Some(Endpoint(h, port))
  {
    PortDigits(port);
    var s := h + (":" + Itoa(port));
    assert s[|h|] == ':' && forall i :: |h| < i < |s| ==> s[i] in Itoa(port);
  }

  /** SplitHostPort undoes PortValue exactly for hosts whose canonical text does not start with '['. */
  lemma SplitPortValue(net: Net, host: string, port: int)
    requires Lawful(net) && PortValue(net, host, port).Some?
    ensures var h := CanonHost(net, host).value;
      SplitHostPort(PortValue(net, host, port).value) == Some(Endpoint(h.text, port)) <==> (h.text == "" || h.text[0] != '[')
  {
    var h := CanonHost(net, host).value;
    if h.ip {
      assert ParsedFits(net, TrimSpace(host), h.text);
    }
    if h.ip && IsSix(net, h.text) {
      SplitBracketed(h.text, port);
    } else if h.text == "" || h.text[0] != '[' {
      SplitPlain(h.text, port);
    } else {
      SplitMisread(h.text, port);
    }
  }

  // ---------------------------------------------------------------- the canonical port value

  /** The value of a port event, as Canonical rewrites it. */
  function CanonPort(net: Net, value: string): Option<string> {
    var e := SplitHostPort(value);
    if e.None? then None else PortValue(net, e.value.host, e.value.port)
  }

  predicate BracketedSix(net: Net, s: string) {
    |s| >= 2 && s == Bracketed(s[1..|s| - 1]) && CanonSix(net, s[1..|s| - 1])
  }

  predicate CanonSix(net: Net, t: string) {
    Trimmed(t) && net.parse(t) == Some(t) && net.six(t)
  }

  /** The host reaches its canonical form in one call: an address; or a name that does not end in two
      dots, and that losing its dot does not turn into an IPv6 address. */
  predicate Clean(net: Net, host: string) {
    || net.parse(TrimSpace(host)).Some?
    || var r := CanonFQDN(host);
       && r != ""
       && if r[0] == '[' then BracketedSix(net, r) else Settled(host) && !IsSix(net, r)
  }

  lemma SettledTrimmed(host: string)
    requires Settled(host)
    ensures Trimmed(CanonFQDN(host)) && CanonFQDN(CanonFQDN(host)) == CanonFQDN(host)
  {
    CanonFQDNSettled(host);
    TrimmedParts(host);
  }

  lemma TrimmedHost(host: string)
    ensures CanonFQDN(TrimSpace(host)) == CanonFQDN(host)
    ensures Settled(TrimSpace(host)) == Settled(host)
  {
    TrimSpaceTrims(host);
    TrimSpaceTrims(TrimSpace(host));
  }

  lemma CanonFQDNShrinks(s: string)
    ensures |CanonFQDN(s)| <= |s|
  {
    var k := TrimLeftEnd(s);
    var m := TrimRightEnd(s[k..]);
  }

  /** A value that ends in ":port" is its own canonical form if its host is. */
  lemma CanonAddress(net: Net, host: string, port: int)
    requires Lawful(net) && 1 <= port <= 65535 && net.parse(TrimSpace(host)).Some?
    ensures var v := PortValue(net, host, port); v.Some? && CanonPort(net, v.value) == v
  {
    var t := net.parse(TrimSpace(host)).value;
    assert ParsedFits(net, TrimSpace(host), t);
    TrimSpaceTrims(host);
    TrimSpaceTrims(t);
    SplitPortValue(net, host, port);
  }

  lemma CanonPlainName(net: Net, r: string, port: int)
    requires Lawful(net) && 1 <= port <= 65535 && r != "" && r[0] != '['
    ensures CanonPort(net, r + (":" + Itoa(port))) == PortValue(net, r, port)
  {
    SplitPlain(r, port);
  }

  /** Equal texts in front of the same port. */
  lemma SameText(a: string, b: string, tail: string)
    ensures a + tail == b + tail <==> a == b
  {
    if a + tail == b + tail {
      assert a == (a + tail)[..|a|] && b == (b + tail)[..|b|];
    }
  }

  lemma PlainNameSettles(net: Net, host: string, port: int)
    requires Lawful(net) && 1 <= port <= 65535 && net.parse(TrimSpace(host)).None? && TrimSpace(host) != ""
    requires var r := CanonFQDN(host); r != "" && r[0] != '['
    ensures PortValue(net, CanonFQDN(host), port) == PortValue(net, host, port) <==> Settled(host) && !IsSix(net, CanonFQDN(host))
  {
    var r := CanonFQDN(host);
    TrimmedHost(host);
    assert PortValue(net, host, port) == Some(r + (":" + Itoa(port)));
    CanonFQDNSettled(host);
    if Settled(host) {
      SettledTrimmed(host);
      TrimSpaceTrims(r);
      PlainAgain(net, r, port);
    } else {
      UnsettledAgain(net, r, port);
    }
  }

  lemma PlainAgain(net: Net, r: string, port: int)
    requires Lawful(net) && 1 <= port <= 65535 && r != "" && r[0] != '[' && TrimSpace(r) == r && CanonFQDN(r) == r
    ensures PortValue(net, r, port) == Some(r + (":" + Itoa(port))) <==> !IsSix(net, r)
  {
    if net.parse(r).Some? {
      assert ParsedFits(net, r, net.parse(r).value);
      if net.six(net.parse(r).value) {
        var t := net.parse(r).value;
        assert (Bracketed(t) + (":" + Itoa(port)))[0] == '[';
        assert (r + (":" + Itoa(port)))[0] == r[0];
      }
    }
  }

  lemma UnsettledAgain(net: Net, r: string, port: int)
    requires Lawful(net) && 1 <= port <= 65535 && r != "" && r[0] != '[' && (r[|r| - 1] == '.' || IsSpace(r[|r| - 1]))
    ensures PortValue(net, r, port) != Some(r + (":" + Itoa(port)))
  {
    var tail := ":" + Itoa(port);
    var h := CanonHost(net, r);
    if h.Some? {
      if h.value.ip {
        AddressDiffers(net, r, h.value.text);
      } else {
        Shorter(r);
        TrimmedHost(r);
      }
      assert (Bracketed(h.value.text) + tail)[0] == '[' && (r + tail)[0] == r[0];
      SameText(h.value.text, r, tail);
    }
  }

  /** No address without a zone ends in a dot or a space. */
  lemma AddressDiffers(net: Net, r: string, t: string)
    requires Lawful(net) && net.parse(TrimSpace(r)) == Some(t) && r != "" && (r[|r| - 1] == '.' || IsSpace(r[|r| - 1]))
    ensures net.six(t) || t != r
  {
    TrimSpaceTrims(r);
    assert ParsedFits(net, TrimSpace(r), t);
  }

  lemma SameBrackets(a: string, b: string)
    ensures Bracketed(a) == Bracketed(b) <==> a == b
  {
    assert Bracketed(a)[1..|a| + 1] == a && Bracketed(b)[1..|b| + 1] == b;
  }

  /** The host in front of the port that would print as [t]. */
  lemma BracketedHost(net: Net, t: string, h: Host)
    requires Lawful(net) && CanonHost(net, t) == Some(h)
    ensures (if h.ip && IsSix(net, h.text) then Bracketed(h.text) else h.text) == Bracketed(t) <==> CanonSix(net, t)
  {
    TrimSpaceTrims(t);
    CanonFQDNShrinks(t);
    TrimmedHost(t);
    SameBrackets(h.text, t);
    if h.ip {
      assert ParsedFits(net, TrimSpace(t), h.text);
      TrimShrinks(t);
    }
  }

  lemma TrimShrinks(s: string)
    ensures |TrimSpace(s)| <= |s|
  {
    var k := TrimLeftEnd(s);
    var m := TrimRightEnd(s[k..]);
  }

  lemma BracketedAgain(net: Net, t: string, port: int)
    requires Lawful(net) && 1 <= port <= 65535
    ensures var v := Bracketed(t) + (":" + Itoa(port)); CanonPort(net, v) == Some(v) <==> CanonSix(net, t)
  {
    SplitBracketed(t, port);
    var h := CanonHost(net, t);
    if h.Some? {
      BracketedHost(net, t, h.value);
      SameText(if h.value.ip && IsSix(net, h.value.text) then Bracketed(h.value.text) else h.value.text, Bracketed(t), ":" + Itoa(port));
    } else {
      TrimSpaceTrims(t);
    }
  }

  lemma LastBracketInside(r: string, tail: string)
    requires ']' !in tail && LastIndex(r + tail, ']').Some?
    ensures LastIndex(r + tail, ']').value < |r|
  {
    forall i | |r| <= i < |r + tail| ensures (r + tail)[i] != ']' { assert (r + tail)[i] == tail[i - |r|]; }
  }

  /** A value that starts with a bracket splits only behind a bracket right before the port. */
  lemma BracketBeforePort(r: string, port: int)
    requires 1 <= port <= 65535 && r != "" && r[0] == '[' && SplitHostPort(r + (":" + Itoa(port))).Some?
    ensures |r| >= 2 && r == Bracketed(r[1..|r| - 1])
  {
    PortDigits(port);
    var tail := ":" + Itoa(port);
    var v := r + tail;
    assert v[0] == r[0] && v[|r|] == ':';
    BracketSplit(v);
    LastBracketInside(r, tail);
    BracketLast(v, |r|);
    assert v[|r| - 1] == r[|r| - 1] == ']';
    Bracketing(r);
  }

  lemma BracketSplit(v: string)
    requires v != "" && v[0] == '[' && SplitHostPort(v).Some?
    ensures var end := LastIndex(v, ']'); end.Some? && end.value + 1 < |v| && v[end.value + 1] == ':' && Atoi(v[end.value + 2..]).Some?
  {
    var end := LastIndex(v, ']').value;
    assert v[end + 1..][1..] == v[end + 2..];
  }

  /** Between the closing bracket and the number there is exactly one colon. */
  lemma BracketLast(v: string, n: nat)
    requires n < |v| && v[0] == '[' && v[n] == ':' && SplitHostPort(v).Some?
    requires LastIndex(v, ']').Some? && LastIndex(v, ']').value < n
    ensures LastIndex(v, ']').value + 1 == n
  {
    BracketSplit(v);
    var end := LastIndex(v, ']').value;
    if end + 1 < n {
      var number := v[end + 2..];
      assert number[n - end - 2] == ':';
      ColonInNumber(number, n - end - 2);
    }
  }

  lemma Bracketing(r: string)
    requires |r| >= 2 && r[0] == '[' && r[|r| - 1] == ']'
    ensures r == Bracketed(r[1..|r| - 1])
  {
  }

  lemma ColonInNumber(s: string, i: nat)
    requires i < |s| && s[i] == ':'
    ensures Atoi(s).None?
  {
    if Signed(s) { assert s[1..][i - 1] == ':'; }
  }

  /** Rewriting a port value twice changes nothing more exactly when its host is clean. */
  lemma CanonPortSettles(net: Net, value: string)
    requires Lawful(net) && CanonPort(net, value).Some?
    ensures var v := CanonPort(net, value); CanonPort(net, v.value) == v <==> Clean(net, SplitHostPort(value).value.host)
  {
    var host, port := SplitHostPort(value).value.host, SplitHostPort(value).value.port;
    var r := CanonFQDN(host);
    TrimmedHost(host);
    if net.parse(TrimSpace(host)).Some? {
      CanonAddress(net, host, port);
    } else if r == "" {
      EmptyHost(net, port);
    } else if r[0] != '[' {
      CanonPlainName(net, r, port);
      PlainNameSettles(net, host, port);
    } else {
      BracketName(net, r, port);
    }
  }

  lemma BracketName(net: Net, r: string, port: int)
    requires Lawful(net) && 1 <= port <= 65535 && r != "" && r[0] == '['
    ensures var v := r + (":" + Itoa(port)); CanonPort(net, v) == Some(v) <==> BracketedSix(net, r)
  {
    if SplitHostPort(r + (":" + Itoa(port))).Some? {
      BracketBeforePort(r, port);
      BracketedAgain(net, r[1..|r| - 1], port);
    } else if BracketedSix(net, r) {
      BracketedAgain(net, r[1..|r| - 1], port);
    }
  }

  lemma EmptyHost(net: Net, port: int)
    requires Lawful(net) && 1 <= port <= 65535
    ensures CanonPort(net, "" + (":" + Itoa(port))).None?
  {
    SplitPlain("", port);
    TrimSpaceTrims("");
  }

  // ---------------------------------------------------------------- DNS names

  predicate LabelChar(c: char) {
    'a' <= c <= 'z' || IsDigit(c) || c == '-' || c == '_'
  }

  predicate Label(l: string) {
    l != "" && |l| <= 63 && l[0] != '-' && l[|l| - 1] != '-' && forall i :: 0 <= i < |l| ==> LabelChar(l[i])
  }

  predicate ValidName(name: string) {
    name != "" && |name| <= 253 && forall l :: l in Split(name, '.') ==> Label(l)
  }

  /** validName's two loops. */
  method CheckName(name: string) returns (ok: bool)
    ensures ok <==> ValidName(name)
  {
    if name == "" || |name| > 253 {
      return false;
    }
    var labels := Split(name, '.');
    var i := 0;
    while i < |labels|
      invariant 0 <= i <= |labels| && forall j :: 0 <= j < i ==> Label(labels[j])
    {
      var l := labels[i];
      assert l in labels;
      if l == "" || |l| > 63 || l[0] == '-' || l[|l| - 1] == '-' {
        return false;
      }
      var k := 0;
      while k < |l|
        invariant 0 <= k <= |l| && forall j :: 0 <= j < k ==> LabelChar(l[j])
      {
        if !LabelChar(l[k]) {
          return false;
        }
        k := k + 1;
      }
      i := i + 1;
    }
    ok := true;
  }

  predicate NameText(s: string) {
    forall i :: 0 <= i < |s| ==> LabelChar(s[i]) || s[i] == '.'
  }

  lemma {:induction false} LabelsText(s: string)
    requires forall i :: 0 <= i < |Split(s, '.')[0]| ==> LabelChar(Split(s, '.')[0][i])
    requires forall l :: l in Split(s, '.')[1..] ==> Label(l)
    ensures NameText(s) && (s != "" ==> s[|s| - 1] != '.')
    decreases |s|
  {
    if s != "" {
      var rest := Split(s[1..], '.');
      if s[0] == '.' {
        assert Split(s, '.')[1..] == rest;
        assert rest[0] in rest;
        assert rest == [rest[0]] + rest[1..];
        LabelsText(s[1..]);
        assert s[1..] != "";
      } else {
        assert Split(s, '.')[1..] == rest[1..] && Split(s, '.')[0] == [s[0]] + rest[0];
        forall i | 0 <= i < |rest[0]| ensures LabelChar(rest[0][i]) { assert Split(s, '.')[0][i + 1] == rest[0][i]; }
        LabelsText(s[1..]);
        assert LabelChar(Split(s, '.')[0][0]);
      }
    }
  }

  /** A valid name is its own canonical form. */
  lemma ValidNameCanonical(name: string)
    requires ValidName(name)
    ensures NameText(name) && name[|name| - 1] != '.' && TrimSpace(name) == name && CanonFQDN(name) == name
  {
    var labels := Split(name, '.');
    assert labels[0] in labels;
    LabelsText(name);
    TrimSpaceTrims(name);
    assert Lower(name) == name;
  }

  /** One call is enough for this host: an address, or a name that does not end in two dots and that losing
      its dot does not turn into an address. */
  predicate Settles(net: Net, host: string) {
    || net.parse(TrimSpace(host)).Some?
    || var r := CanonFQDN(host);
       r != "" && r[0] != '[' && Settled(host) && net.parse(r).None?
  }

  /** A host in canonical form. */
  predicate GoodHost(net: Net, h: Host) {
    && CanonHost(net, h.text) == Some(h) && h.text != "" && TrimSpace(h.text) == h.text && h.text[0] != '['
    && (if h.ip then net.parse(h.text) == Some(h.text) else CanonFQDN(h.text) == h.text && net.parse(h.text).None?)
  }

  lemma SettlesGood(net: Net, host: string)
    requires Lawful(net) && Settles(net, host)
    ensures CanonHost(net, host).Some? && GoodHost(net, CanonHost(net, host).value)
  {
    TrimSpaceTrims(host);
    TrimmedHost(host);
    if net.parse(TrimSpace(host)).Some? {
      var t := net.parse(TrimSpace(host)).value;
      assert ParsedFits(net, TrimSpace(host), t);
      TrimSpaceTrims(t);
    } else {
      SettledTrimmed(host);
      TrimSpaceTrims(CanonFQDN(host));
      assert TrimSpace(host) == "" ==> CanonFQDN(host) == "";
    }
  }

  /** A canonical host settles. */
  lemma GoodSettles(net: Net, h: Host)
    requires GoodHost(net, h)
    ensures Settles(net, h.text)
  {
    if !h.ip { CanonFQDNSettled(h.text); }
  }
}
