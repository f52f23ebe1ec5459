/** When the fields of a canonical event agree with its value: the endpoint, the service, TLS. */
module CanonicalAgreement {
  import opened Wrappers
  import opened Text
  import opened Decimal
  import opened Events
  import opened Hosts
  import opened Urls
  import opened Canonical
  import opened CanonicalBinding
  import opened CanonicalTheorems

  // ---------------------------------------------------------------- ports

  /** The endpoint a canonical event's value names. */
  function Named(net: Net, ev: Event): Option<Endpoint> {
    if ev.kind == KIND_PORT then SplitHostPort(ev.value)
    else if ev.kind == KIND_SERVICE then (if Cut(ev.value) then SplitHostPort(Before(ev.value)) else None)
    else if WebKind(ev.kind) && Parse(net, ev.value).Some? then
      Some(Endpoint(Parse(net, ev.value).value.host, PortNumber(Parse(net, ev.value).value)))
    else None
  }

  /** A host text in canonical form. */
  predicate NamesHost(net: Net, x: string) {
    CanonHost(net, x).Some? && CanonHost(net, x).value.text == x
  }

  /** Target and value speak of the same endpoint: same port, and the same address or name. */
  predicate Agrees(net: Net, ev: Event) {
    var e := Named(net, ev);
    && e.Some? && NamesHost(net, e.value.host) && Bound(ev.target, CanonHost(net, e.value.host).value, e.value.port)
  }

  /** A target bound to a canonical host stays bound to it. */
  lemma NamedStays(net: Net, t: Target, x: string, port: int)
    requires NamesHost(net, x) && Bound(t, CanonHost(net, x).value, port) && CanonTarget(net, t).Some?
    ensures Bound(CanonTarget(net, t).value, CanonHost(net, x).value, port)
  {
    TrimmedHost(x);
  }

  lemma NamedBinds(net: Net, t: Target, x: string, port: int)
    requires NamesHost(net, x) && Bind(net, t, x, port).Some?
    ensures Bound(Bind(net, t, x, port).value, CanonHost(net, x).value, port)
  {
    TrimmedHost(x);
  }

  /** The canonical text of the host, taken out of its brackets if it has any, is a host in canonical form. */
  predicate ReadsBack(net: Net, host: string) {
    && CanonHost(net, host).Some?
    && var h := CanonHost(net, host).value.text;
       if h == "" || h[0] != '[' then NamesHost(net, h)
       else |h| >= 2 && h == Bracketed(h[1..|h| - 1]) && NamesHost(net, h[1..|h| - 1])
  }

  lemma PortReads(net: Net, host: string, port: int)
    requires Lawful(net) && PortValue(net, host, port).Some?
    ensures var e := SplitHostPort(PortValue(net, host, port).value); (e.Some? && NamesHost(net, e.value.host)) <==> ReadsBack(net, host)
  {
    var h := CanonHost(net, host).value;
    if h.text == "" || h.text[0] != '[' {
      SplitPortValue(net, host, port);
    } else {
      assert h.ip ==> ParsedFits(net, TrimSpace(host), h.text);
      BracketReads(net, h.text, port);
    }
  }

  /** Out of the brackets comes what is between them. */
  lemma BracketReads(net: Net, h: string, port: int)
    requires 1 <= port <= 65535 && h != "" && h[0] == '['
    ensures var e := SplitHostPort(h + (":" + Itoa(port)));
      (e.Some? && NamesHost(net, e.value.host)) <==> |h| >= 2 && h == Bracketed(h[1..|h| - 1]) && NamesHost(net, h[1..|h| - 1])
  {
    if SplitHostPort(h + (":" + Itoa(port))).Some? { BracketBeforePort(h, port); }
    if |h| >= 2 && h == Bracketed(h[1..|h| - 1]) { SplitBracketed(h[1..|h| - 1], port); }
  }

  lemma PortBound(net: Net, ev: Event, e: Endpoint)
    requires ev.kind == KIND_PORT && Canon(net, ev).Some? && SplitHostPort(Canon(net, ev).value.value) == Some(e) && NamesHost(net, e.host)
    ensures Bound(Canon(net, ev).value.target, CanonHost(net, e.host).value, e.port)
  {
    KindsDiffer();
    CanonValueOf(net, ev);
    PreparedShape(net, ev);
    RetargetedShape(net, ev);
    SettleRecord(net, Prepared(net, ev).value);
    PortRebound(net, Retargeted(net, ev), e);
  }

  lemma PortRebound(net: Net, e1: Event, e: Endpoint)
    requires e1.kind == KIND_PORT && Rebound(net, e1).Some? && SplitHostPort(e1.value) == Some(e) && NamesHost(net, e.host)
    ensures Bound(Rebound(net, e1).value.target, CanonHost(net, e.host).value, e.port)
  {
    KindsDiffer();
    NamedBinds(net, e1.target, e.host, e.port);
    NamedStays(net, DefaultTCP(Bind(net, e1.target, e.host, e.port).value), e.host, e.port);
  }

  /** An accepted port event has the port and the address or name of its value exactly when the host it was
      written with reads back in canonical form. */
  lemma PortAgreesIff(net: Net, ev: Event)
    requires Lawful(net) && ev.kind == KIND_PORT && Canon(net, ev).Some?
    ensures SplitHostPort(ev.value).Some?
    ensures Agrees(net, Canon(net, ev).value) <==> ReadsBack(net, SplitHostPort(ev.value).value.host)
  {
    KindsDiffer();
    CanonValueOf(net, ev);
    var e := SplitHostPort(ev.value).value;
    PortReads(net, e.host, e.port);
    var named := SplitHostPort(Canon(net, ev).value.value);
    if named.Some? && NamesHost(net, named.value.host) { PortBound(net, ev, named.value); }
  }

  lemma SplitSame(net: Net, h: Host, port: int)
    requires Lawful(net) && 1 <= port <= 65535 && h.text != "" && h.text[0] == '[' && !h.ip && SplitHostPort(PortText(net, h, port)).Some?
    ensures SplitHostPort(PortText(net, h, port)).value.port == port
  {
    BracketBeforePort(h.text, port);
    SplitBracketed(h.text[1..|h.text| - 1], port);
  }

  /** The port in a canonical value is the port that was written, if the value can be split at all. */
  lemma PortKept(net: Net, value: string)
    requires Lawful(net) && CanonPort(net, value).Some? && SplitHostPort(CanonPort(net, value).value).Some?
    ensures SplitHostPort(CanonPort(net, value).value).value.port == SplitHostPort(value).value.port
  {
    var e := SplitHostPort(value).value;
    var h := CanonHost(net, e.host).value;
    SplitPortValue(net, e.host, e.port);
    assert h.ip ==> ParsedFits(net, TrimSpace(e.host), h.text);
    if h.text != "" && h.text[0] == '[' {
      SplitSame(net, h, e.port);
    }
  }

  lemma LooseRange(value: string)
    requires SplitHostPort(value).None? && 0 <= SplitLoose(value).port <= 65535
    ensures SplitLoose(value).port == 0
  {
  }

  /** An accepted port event carries the port of its value exactly when its canonical value can be split
      again; otherwise it carries none. */
  lemma PortNumberIff(net: Net, ev: Event)
    requires Lawful(net) && ev.kind == KIND_PORT && Canon(net, ev).Some?
    ensures SplitHostPort(ev.value).Some?
    ensures var r := Canon(net, ev).value;
      r.target.port == SplitHostPort(ev.value).value.port <==> SplitHostPort(r.value).Some?
  {
    KindsDiffer();
    CanonValueOf(net, ev);
    var v := Canon(net, ev).value.value;
    AcceptedPort(net, ev, SplitLoose(v));
    if SplitHostPort(v).Some? {
      PortKept(net, ev.value);
    } else {
      LooseRange(v);
    }
  }

  // ---------------------------------------------------------------- services

  lemma ServiceNamed(net: Net, r: Event, h: Host, port: int)
    requires r.kind == KIND_SERVICE && ServiceFits(net, r.value, h, port, r.service)
    ensures Named(net, r) == Some(Endpoint(h.text, port))
  {
    KindsDiffer();
  }

  lemma UnsettledName(net: Net, host: string)
    requires Lawful(net) && CanonFQDN(host) != "" && ':' !in CanonFQDN(host) && !Settled(host)
    ensures !NamesHost(net, CanonFQDN(host))
  {
    var r := CanonFQDN(host);
    TrimmedHost(r);
    CanonFQDNSettled(host);
    if net.parse(TrimSpace(r)).Some? {
      assert ParsedFits(net, TrimSpace(r), net.parse(TrimSpace(r)).value);
      TrimSpaceTrims(r);
      AddressDiffers(net, r, net.parse(TrimSpace(r)).value);
    }
  }

  lemma SettledAgrees(net: Net, ev: Event, e: Endpoint)
    requires Lawful(net) && ev.kind == KIND_SERVICE && Canon(net, ev).Some? && ServiceEndpoint(ev) == Some(e) && Settles(net, e.host)
    ensures Agrees(net, Canon(net, ev).value)
  {
    ServiceResult(net, ev);
    ServiceShape(net, TrimSpace(ev.value));
    SettlesGood(net, e.host);
    var h := CanonHost(net, e.host).value;
    ServiceNamed(net, Canon(net, ev).value, h, e.port);
    BindGood(net, Retargeted(net, ev).target, e.host, e.port);
    BoundStays(net, Bind(net, Retargeted(net, ev).target, e.host, e.port).value, h, e.port);
  }

  lemma DottedAgrees(net: Net, ev: Event, e: Endpoint)
    requires Lawful(net) && ev.kind == KIND_SERVICE && Canon(net, ev).Some? && ServiceEndpoint(ev) == Some(e) && Dotted(net, e.host)
    ensures Agrees(net, Canon(net, ev).value) <==> Canon(net, ev).value.target.host == CanonFQDN(e.host)
  {
    ServiceResult(net, ev);
    ServiceShape(net, TrimSpace(ev.value));
    DottedHost(net, e.host);
    ServiceNamed(net, Canon(net, ev).value, CanonHost(net, e.host).value, e.port);
    BoundTwice(net, Retargeted(net, ev).target, e.host, e.port);
  }

  lemma GivenAgrees(net: Net, ev: Event, e: Endpoint, r: string)
    requires Lawful(net) && ev.kind == KIND_SERVICE && Canon(net, ev).Some? && ServiceEndpoint(ev) == Some(e)
    requires CanonIP(net, e.host).None? && r != ""
    ensures Canon(net, ev).value.target.host == r <==> CanonIP(net, GivenHost(net, ev)) == Some(r)
  {
    ServiceResult(net, ev);
    GivenFixed(net, ev);
    GivenStays(net, Retargeted(net, ev).target, e.host, e.port);
    GivenKept(net, ev);
    if CanonIP(net, GivenHost(net, ev)) == Some(r) { GivenThere(net, GivenHost(net, ev), r); }
  }

  lemma UnsettledDisagrees(net: Net, ev: Event, e: Endpoint)
    requires Lawful(net) && ev.kind == KIND_SERVICE && Canon(net, ev).Some? && ServiceEndpoint(ev) == Some(e)
    requires net.parse(TrimSpace(e.host)).None? && !Settled(e.host)
    ensures !Agrees(net, Canon(net, ev).value)
  {
    ServiceResult(net, ev);
    ServiceShape(net, TrimSpace(ev.value));
    ServiceHostText(net, e.host);
    ServiceNamed(net, Canon(net, ev).value, CanonHost(net, e.host).value, e.port);
    UnsettledName(net, e.host);
  }

  /** An accepted service event has the port and the address or name of its value exactly when its host
      settles; its service is always the one in its value. */
  lemma ServiceAgreesIff(net: Net, ev: Event)
    requires Lawful(net) && ev.kind == KIND_SERVICE && Canon(net, ev).Some?
    ensures Agrees(net, Canon(net, ev).value) <==> ServiceSettles(net, ev)
    ensures var r := Canon(net, ev).value; Cut(r.value) && r.service == Behind(r.value)
  {
    ServiceResult(net, ev);
    ServiceShape(net, TrimSpace(ev.value));
    var e := ServiceEndpoint(ev).value;
    if net.parse(TrimSpace(e.host)).Some? {
      SettledAgrees(net, ev, e);
    } else if !Settled(e.host) {
      UnsettledDisagrees(net, ev, e);
    } else {
      SettledServiceHost(net, e.host);
      if Settles(net, e.host) {
        SettledAgrees(net, ev, e);
      } else {
        DottedHost(net, e.host);
        DottedAgrees(net, ev, e);
        GivenAgrees(net, ev, e, CanonFQDN(e.host));
      }
    }
  }

  // ---------------------------------------------------------------- URLs

  lemma SteadyWebAgrees(net: Net, ev: Event)
    requires Lawful(net) && WebKind(ev.kind) && Canon(net, ev).Some? && CanonURL(net, Canon(net, ev).value.value) == Some(Canon(net, ev).value.value)
    ensures Agrees(net, Canon(net, ev).value)
  {
    KindsDiffer();
    var v := Canon(net, ev).value.value;
    WebResult(net, ev);
    CanonURLText(net, ev.value);
    GoodURL(net, v);
    PreparedShape(net, ev);
    RetargetedShape(net, ev);
    SettleRecord(net, Prepared(net, ev).value);
    var e1 := Retargeted(net, ev);
    GoodFrom(net, v);
    WebRebound(net, e1, URLTarget(net, v).value, CanonHost(net, Parse(net, v).value.host).value);
  }

  lemma WebRebound(net: Net, e1: Event, from: Target, h: Host)
    requires Lawful(net) && WebKind(e1.kind) && Rebound(net, e1).Some? && URLTarget(net, e1.value) == Some(from) && FromFits(net, from, h)
    ensures Bound(Rebound(net, e1).value.target, h, from.port)
  {
    KindsDiffer();
    GoodSettles(net, h);
    var t0 := e1.target.(url := from.url);
    BindGood(net, t0, h.text, from.port);
    BoundStays(net, WithDefaults(Bind(net, t0, h.text, from.port).value, from), h, from.port);
  }

  /** An accepted URL or screenshot has the port and the address or name of its value exactly when the host
      is an address, or does not end in two dots. */
  lemma WebAgreesIff(net: Net, ev: Event)
    requires Lawful(net) && WebKind(ev.kind) && Canon(net, ev).Some?
    ensures WebUrl(net, ev).Some?
    ensures Agrees(net, Canon(net, ev).value) <==> SteadyHost(net, WebUrl(net, ev).value.host)
  {
    KindsDiffer();
    WebResult(net, ev);
    CanonURLSettles(net, ev.value);
    AcceptedParts(net, ev.value);
    CanonURLReads(net, ev.value);
    var host := WebUrl(net, ev).value.host;
    CanonWebHostAgain(net, host);
    TrimSpaceTrims("");
    if SteadyHost(net, host) {
      SteadyWebAgrees(net, ev);
    }
  }

  /** No target is bound to a host without a name. */
  lemma NamelessRefused(net: Net, t: Target, from: Target)
    requires Lawful(net) && from.host == "" && from.name == CanonFQDN("")
    ensures var b := Bind(net, t, Authority(from), from.port); b.None? || CanonTarget(net, WithDefaults(b.value, from)).None?
  {
    TrimSpaceTrims("");
  }

  /** What an accepted rebinding says of the URL's target. */
  lemma WebReboundFrom(net: Net, e1: Event, from: Target)
    requires WebKind(e1.kind) && Rebound(net, e1).Some? && URLTarget(net, e1.value) == Some(from)
    ensures var b := Bind(net, e1.target.(url := from.url), Authority(from), from.port);
      b.Some? && CanonTarget(net, WithDefaults(b.value, from)).Some? && Rebound(net, e1).value.tls == Tls(from.url)
  {
    KindsDiffer();
  }

  lemma UrlTls(net: Net, v: string, u: Url, h: Host)
    requires Accepted(net, v, u, h) && h.text != ""
    ensures Tls(CanonURL(net, v).value) <==> u.scheme == Https
  {
    TlsPrint(u.scheme, AuthorityText(net, h.text, u.port), u.rest);
  }

  lemma WebReboundTls(net: Net, e1: Event, u: Url, h: Host, from: Target)
    requires Lawful(net) && WebKind(e1.kind) && Rebound(net, e1).Some? && Accepted(net, e1.value, u, h)
    requires URLTarget(net, e1.value) == Some(from) && CanonURL(net, e1.value) == Some(from.url)
    requires h.text == "" ==> from.host == "" && from.name == CanonFQDN("")
    ensures Rebound(net, e1).value.tls == (u.scheme == Https)
  {
    WebReboundFrom(net, e1, from);
    if h.text == "" { NamelessRefused(net, e1.target.(url := from.url), from); }
    UrlTls(net, e1.value, u, h);
  }

  /** The TLS flag of an accepted URL or screenshot says whether its scheme is https. */
  lemma WebTls(net: Net, ev: Event)
    requires Lawful(net) && WebKind(ev.kind) && Canon(net, ev).Some?
    ensures WebUrl(net, ev).Some? && Canon(net, ev).value.tls == (WebUrl(net, ev).value.scheme == Https)
  {
    var v := Canon(net, ev).value.value;
    WebResult(net, ev);
    CanonURLReads(net, ev.value);
    RetargetedShape(net, ev);
    PreparedShape(net, ev);
    SettleRecord(net, Prepared(net, ev).value);
    WebAccepted(net, Retargeted(net, ev));
    AcceptedParts(net, v);
    URLTargetNames(net, v);
    WebReboundTls(net, Retargeted(net, ev), Parse(net, TrimSpace(v)).value, CanonHost(net, Parse(net, TrimSpace(v)).value.host).value, URLTarget(net, v).value);
  }

  lemma WebAccepted(net: Net, e1: Event)
    requires Lawful(net) && WebKind(e1.kind) && Rebound(net, e1).Some?
    ensures CanonURL(net, e1.value).Some?
  {
    KindsDiffer();
    URLTargetIff(net, e1.value);
  }

  // ---------------------------------------------------------------- an address with a dot

  /** A current service event whose value writes an address with a dot behind it. */
  function DottedEvent(ip: string): Event {
    Event(SCHEMA_VERSION, "1", "1", "", KIND_SERVICE, ip + "." + (":" + Itoa(80)) + ("/" + "http"), "", "", NO_TARGET, None, "", "", false,
          map[], map[])
  }

  lemma DottedParts(net: Net, ip: string)
    requires Lawful(net) && ValidName(ip)
    ensures var v := DottedEvent(ip).value;
      TrimSpace(v) == v && v != "" && Cut(v) && Behind(v) == "http" && SplitHostPort(Before(v)) == Some(Endpoint(ip + ".", 80))
  {
    ValidNameCanonical(ip);
    var before := ip + "." + (":" + Itoa(80));
    NoSlashBefore(ip);
    CutAt(before, "http");
    assert ip[0] != '[';
    Hosts.SplitPlain(ip + ".", 80);
    DottedTrimmed(ip);
  }

  lemma NoSlashBefore(ip: string)
    requires NameText(ip)
    ensures '/' !in ip + "." + (":" + Itoa(80))
  {
    PortDigits(80);
    assert forall c :: c in Itoa(80) ==> IsDigit(c);
  }

  lemma DottedTrimmed(ip: string)
    requires NameText(ip) && ip != ""
    ensures var v := DottedEvent(ip).value; TrimSpace(v) == v && v != ""
  {
    var v := ip + "." + (":" + Itoa(80)) + ("/" + "http");
    assert v[0] == ip[0] && v[|v| - 1] == 'p';
    TrimSpaceTrims(v);
  }

  lemma DottedName(net: Net, ip: string)
    requires Lawful(net) && ValidName(ip)
    ensures TrimSpace(ip + ".") == ip + "." && CanonFQDN(ip + ".") == ip && Settled(ip + ".")
  {
    ValidNameCanonical(ip);
    assert Trimmed(ip + ".");
    TrimSpaceTrims(ip + ".");
    assert (ip + ".")[..|ip|] == ip;
    assert DropDot(ip) == ip;
  }

  lemma DottedAccepted(net: Net, ip: string)
    requires Lawful(net) && ValidName(ip) && net.parse(ip + ".").None?
    ensures Canon(net, DottedEvent(ip)).Some? && ServiceEndpoint(DottedEvent(ip)) == Some(Endpoint(ip + ".", 80))
  {
    var ev := DottedEvent(ip);
    KindsDiffer();
    DottedParts(net, ip);
    DottedName(net, ip);
    ValidNameCanonical(ip);
    TrimmedAgain(net, KIND_SERVICE, ev.value);
    DottedSettles(net, ip, ev.(info := WithInfo(ev.meta, ev.info)));
  }

  lemma DottedTargets(net: Net, ip: string)
    requires Lawful(net) && ValidName(ip) && CanonFQDN(ip) == ip
    ensures CanonTarget(net, NO_TARGET) == Some(NO_TARGET)
    ensures CanonTarget(net, NO_TARGET.(port := 80, name := ip, nameRole := NAME_REQUESTED)).Some?
  {
    TrimSpaceTrims("");
  }

  lemma DottedBinds(net: Net, ip: string, ev: Event)
    requires net.parse(ip + ".").None? && ev.kind == KIND_SERVICE && ev.target == NO_TARGET && ev.service == ""
    requires var v := ev.value; Cut(v) && Behind(v) == "http" && SplitHostPort(Before(v)) == Some(Endpoint(ip + ".", 80))
    requires TrimSpace(ip + ".") == ip + "." && CanonFQDN(ip + ".") == ip
    ensures BindKind(net, ev).Some? && BindKind(net, ev).value.target == NO_TARGET.(port := 80, name := ip, nameRole := NAME_REQUESTED)
  {
    KindsDiffer();
  }

  lemma DottedSettles(net: Net, ip: string, ev: Event)
    requires Lawful(net) && ValidName(ip) && net.parse(ip + ".").None? && ev == DottedEvent(ip).(info := ev.info)
    requires var v := ev.value; Cut(v) && Behind(v) == "http" && SplitHostPort(Before(v)) == Some(Endpoint(ip + ".", 80))
    requires TrimSpace(ip + ".") == ip + "." && CanonFQDN(ip + ".") == ip && CanonFQDN(ip) == ip
    ensures Settle(net, ev).Some?
  {
    DottedTargets(net, ip);
    assert Retarget(net, ev) == Some(ev);
    DottedBinds(net, ip, ev);
  }

  /** Any IPv4 address written with a dot behind it: the event is accepted, named after the address instead
      of bound to it, and changes when it is made canonical again. */
  lemma DottedServiceChanges(net: Net, ip: string)
    requires Lawful(net) && ValidName(ip) && net.parse(ip) == Some(ip) && net.parse(ip + ".").None?
    ensures Canon(net, DottedEvent(ip)).Some?
    ensures var r := Canon(net, DottedEvent(ip)).value; Canon(net, r) != Some(r) && !Agrees(net, r)
  {
    var ev := DottedEvent(ip);
    DottedAccepted(net, ip);
    DottedName(net, ip);
    ServiceAgreesIff(net, ev);
    CanonFQDNSettled("");
    TrimSpaceTrims("");
    ServiceIdempotentIff(net, ev);
  }
}
