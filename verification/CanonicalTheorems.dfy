/** The canonical form of an event: exactly when it is stable, and exactly when its fields agree with its
    value. */
module CanonicalTheorems {
  import opened Wrappers
  import opened Text
  import opened Decimal
  import opened Events
  import opened Hosts
  import opened Urls
  import opened Canonical
  import opened CanonicalBinding

  // ---------------------------------------------------------------- the whole event

  /** For an event whose target is canonical: its value is, too, and names the same host. */
  predicate GoodValue(net: Net, ev: Event) {
    && (NameKind(ev.kind) ==> ev.value != "" && CanonFQDN(ev.value) == ev.value)
    && (ev.kind == KIND_IP ==> ev.value != "" && CanonIP(net, ev.value) == Some(ev.value))
    && (ev.kind == KIND_PORT ==> GoodEndpoint(net, ev.value))
    && (ev.kind == KIND_SERVICE ==> GoodService(net, ev))
    && (WebKind(ev.kind) ==> ev.value != "" && CanonURL(net, ev.value) == Some(ev.value))
  }

  lemma OtherKind(net: Net, ev: Event)
    requires ev.kind != KIND_IP && !NameKind(ev.kind) && ev.kind != KIND_PORT && ev.kind != KIND_SERVICE && !WebKind(ev.kind)
    ensures BindKind(net, ev) == Some(ev)
  {
  }

  /** Binding a canonical event again changes nothing. */
  lemma KindAgain(net: Net, ev: Event)
    requires Lawful(net) && GoodValue(net, ev) && Fixed(net, ev.target) && Rebound(net, ev).Some?
    ensures var r := Rebound(net, ev).value; BindKind(net, r) == Some(r)
  {
    KindsDiffer();
    if ev.kind == KIND_IP {
      AgainIP(net, ev);
    } else if NameKind(ev.kind) {
      AgainName(net, ev);
    } else if ev.kind == KIND_PORT {
      AgainPort(net, ev);
    } else if ev.kind == KIND_SERVICE {
      AgainService(net, ev);
    } else if WebKind(ev.kind) {
      AgainWeb(net, ev);
    } else {
      OtherAgain(net, ev);
    }
  }

  lemma OtherAgain(net: Net, ev: Event)
    requires ev.kind != KIND_IP && !NameKind(ev.kind) && ev.kind != KIND_PORT && ev.kind != KIND_SERVICE && !WebKind(ev.kind)
    requires Rebound(net, ev).Some?
    ensures var r := Rebound(net, ev).value; BindKind(net, r) == Some(r)
  {
    OtherKind(net, ev);
    OtherKind(net, Rebound(net, ev).value);
  }

  lemma BindKeeps(net: Net, t: Target, host: string, port: int)
    requires Bind(net, t, host, port).Some?
    ensures Bind(net, t, host, port).value.url == t.url && Bind(net, t, host, port).value.sni == t.sni
  {
  }

  lemma NameOrAddressKeeps(net: Net, ev: Event)
    requires BindKind(net, ev).Some? && !WebKind(ev.kind) && ev.kind != KIND_PORT && ev.kind != KIND_SERVICE
    ensures var t := BindKind(net, ev).value.target; t.url == ev.target.url && t.sni == ev.target.sni
  {
  }

  lemma EndpointKeeps(net: Net, ev: Event)
    requires BindKind(net, ev).Some? && (ev.kind == KIND_PORT || ev.kind == KIND_SERVICE)
    ensures var t := BindKind(net, ev).value.target; t.url == ev.target.url && t.sni == ev.target.sni
  {
    KindsDiffer();
    var e := if ev.kind == KIND_PORT then SplitLoose(ev.value) else SplitHostPort(Before(ev.value)).value;
    BindKeeps(net, ev.target, e.host, e.port);
  }

  lemma WebKeeps(net: Net, ev: Event)
    requires Lawful(net) && WebKind(ev.kind) && GoodValue(net, ev) && SteadyTarget(net, ev.target) && BindWeb(net, ev).Some?
    ensures SteadyTarget(net, BindWeb(net, ev).value.target)
  {
    GoodFrom(net, ev.value);
    var from := URLTarget(net, ev.value).value;
    BindKeeps(net, ev.target.(url := from.url), Authority(from), from.port);
    SteadyURLAgain(net, from.url);
    SettledAgain(from.sni);
  }

  /** Binding leaves URL and server name as steady as they were. */
  lemma KindSteady(net: Net, ev: Event)
    requires Lawful(net) && GoodValue(net, ev) && SteadyTarget(net, ev.target) && BindKind(net, ev).Some?
    ensures SteadyTarget(net, BindKind(net, ev).value.target)
  {
    KindsDiffer();
    if WebKind(ev.kind) {
      WebKeeps(net, ev);
    } else if ev.kind == KIND_PORT || ev.kind == KIND_SERVICE {
      EndpointKeeps(net, ev);
    } else {
      NameOrAddressKeeps(net, ev);
    }
  }

  lemma ReboundFixed(net: Net, ev: Event)
    requires Lawful(net) && GoodValue(net, ev) && SteadyTarget(net, ev.target) && Rebound(net, ev).Some?
    ensures Fixed(net, Rebound(net, ev).value.target)
  {
    KindSteady(net, ev);
    CanonTargetAgain(net, BindKind(net, ev).value.target);
  }

  lemma InputAgain(net: Net, input: Option<Input>)
    requires Lawful(net) && (input.Some? ==> SteadyTarget(net, input.value.target)) && CanonInput(net, input).Some?
    ensures CanonInput(net, CanonInput(net, input).value) == Some(CanonInput(net, input).value)
  {
    if input.Some? { CanonTargetAgain(net, input.value.target); }
  }

  /** Settling a settled event changes nothing. */
  lemma SettleAgain(net: Net, ev: Event)
    requires Lawful(net) && SteadyTarget(net, ev.target) && Settle(net, ev).Some? && GoodValue(net, Retarget(net, ev).value)
    requires ev.input.Some? ==> SteadyTarget(net, ev.input.value.target)
    ensures var r := Settle(net, ev).value; Settle(net, r) == Some(r)
  {
    CanonTargetAgain(net, ev.target);
    var e1 := Retarget(net, ev).value;
    var e3 := Rebound(net, e1).value;
    ReboundFixed(net, e1);
    KindAgain(net, e1);
    InputAgain(net, ev.input);
    var r := Settle(net, ev).value;
    assert r == e3.(input := r.input, schemaVersion := SCHEMA_VERSION);
    SettledStays(net, e3, r);
  }

  lemma SettledStays(net: Net, e3: Event, r: Event)
    requires Fixed(net, e3.target) && BindKind(net, e3) == Some(e3) && r == e3.(input := r.input, schemaVersion := SCHEMA_VERSION)
    requires CanonInput(net, r.input) == Some(r.input)
    ensures Settle(net, r) == Some(r)
  {
    SameBinding(net, e3, r);
    assert Retarget(net, r) == Some(r);
  }

  /** Binding does not look at the input or the version. */
  lemma SameBinding(net: Net, e: Event, r: Event)
    requires BindKind(net, e) == Some(e) && r == e.(input := r.input, schemaVersion := r.schemaVersion)
    ensures BindKind(net, r) == Some(r)
  {
  }

  // ---------------------------------------------------------------- the theorems

  /** Binding changes nothing but target, value, service and TLS. */
  predicate SameRecord(e: Event, r: Event) {
    && r.kind == e.kind && r.meta == e.meta && r.info == e.info
    && r == e.(value := r.value, target := r.target, service := r.service, tls := r.tls, input := r.input, schemaVersion := r.schemaVersion)
  }

  lemma BindRecord(net: Net, ev: Event)
    requires BindKind(net, ev).Some?
    ensures SameRecord(ev, BindKind(net, ev).value)
    ensures ev.kind != KIND_SERVICE ==> BindKind(net, ev).value.value == ev.value
  {
    KindsDiffer();
  }

  lemma SettleRecord(net: Net, ev: Event)
    requires Settle(net, ev).Some?
    ensures var r := Settle(net, ev).value; var e := Rebound(net, Retarget(net, ev).value).value;
      && SameRecord(ev, r) && r.schemaVersion == SCHEMA_VERSION && (ev.kind != KIND_SERVICE ==> r.value == ev.value)
      && r.target == e.target && r.value == e.value && r.service == e.service && r.tls == e.tls
  {
    BindRecord(net, Retarget(net, ev).value);
  }

  lemma TrimmedAgain(net: Net, kind: string, v: string)
    requires TextKind(kind) && v != "" && TrimSpace(v) == v
    ensures CanonValue(net, kind, v) == Some(v)
  {
    KindsDiffer();
    assert |KIND_NETBLOCK| == 8 && |KIND_SERVICE| == 7 && |KIND_FINDING| == 7 && |KIND_PORT| == 4 && |KIND_IP| == 2;
    assert |KIND_URL| == 3 && |KIND_SCREENSHOT| == 10 && |KIND_FQDN| == 4 && |KIND_DOMAIN| == 6;
  }

  lemma BlockAgain(net: Net, v: string)
    requires Trimmed(v) && net.mask(v) == Some(v)
    ensures CanonValue(net, KIND_NETBLOCK, v) == Some(v)
  {
    TrimSpaceTrims(v);
    assert |KIND_NETBLOCK| == 8 && |KIND_SERVICE| == 7 && |KIND_FINDING| == 7 && |KIND_PORT| == 4 && |KIND_IP| == 2;
    assert |KIND_URL| == 3 && |KIND_SCREENSHOT| == 10 && |KIND_FQDN| == 4 && |KIND_DOMAIN| == 6;
  }

  lemma ValueAgain(net: Net, ev: Event, v: string)
    requires Lawful(net) && GoodValue(net, ev.(value := v)) && ev.kind != KIND_SERVICE && CanonValue(net, ev.kind, ev.value) == Some(v)
    ensures CanonValue(net, ev.kind, v) == Some(v)
  {
    KindsDiffer();
    if ev.kind == KIND_NETBLOCK {
      BlockAgain(net, v);
    } else if TextKind(ev.kind) {
      TrimSpaceTrims(ev.value);
      TrimSpaceTrims(v);
      TrimmedAgain(net, ev.kind, v);
    }
  }

  function Noted(meta: map<string, string>, host: string, port: int): map<string, string> {
    meta["host" := host]["port" := Itoa(port)]
  }

  lemma NotedAgain(meta: map<string, string>, host: string, port: int)
    ensures Noted(Noted(meta, host, port), host, port) == Noted(meta, host, port)
  {
  }

  /** The host written to a port event's metadata is the host of its canonical value. */
  predicate PortStable(net: Net, ev: Event) {
    ev.kind == KIND_PORT && CanonPort(net, ev.value).Some? ==>
      var e := SplitHostPort(ev.value).value; var h := CanonHost(net, e.host).value;
      SplitHostPort(CanonPort(net, ev.value).value) == Some(Endpoint(h.text, e.port)) &&
      CanonHost(net, h.text).Some? && CanonHost(net, h.text).value.text == h.text
  }

  lemma PortMetaAgain(net: Net, ev: Event, r: Event)
    requires PortStable(net, ev) && r.kind == ev.kind && r.meta == PortMeta(net, ev)
    requires ev.kind == KIND_PORT ==> CanonPort(net, ev.value) == Some(r.value)
    ensures PortMeta(net, r) == r.meta
  {
    if ev.kind == KIND_PORT {
      var e := SplitHostPort(ev.value).value;
      PortNoted(net, ev, r, e.port, CanonHost(net, e.host).value);
    }
  }

  lemma PortNoted(net: Net, ev: Event, r: Event, port: int, h: Host)
    requires ev.kind == KIND_PORT && r.kind == KIND_PORT && r.meta == PortMeta(net, ev)
    requires SplitHostPort(ev.value).Some? && SplitHostPort(ev.value).value.port == port && CanonHost(net, SplitHostPort(ev.value).value.host) == Some(h)
    requires SplitHostPort(r.value) == Some(Endpoint(h.text, port)) && CanonHost(net, h.text).Some? && CanonHost(net, h.text).value.text == h.text
    ensures PortMeta(net, r) == r.meta
  {
    NotedAgain(ev.meta, h.text, port);
    assert PortMeta(net, ev) == Noted(ev.meta, h.text, port);
    assert PortMeta(net, r) == Noted(r.meta, h.text, port);
  }

  lemma InfoAgain(meta: map<string, string>, info: map<string, string>)
    ensures WithInfo(meta, WithInfo(meta, info)) == WithInfo(meta, info)
  {
  }

  /** What Canon settles. */
  function Prepared(net: Net, ev: Event): Option<Event> {
    var value := CanonValue(net, ev.kind, ev.value);
    if value.None? then None
    else
      var e := ev.(value := value.value, meta := PortMeta(net, ev));
      Promote(net, e.(info := WithInfo(e.meta, e.info)))
  }

  lemma PreparedShape(net: Net, ev: Event)
    requires Canon(net, ev).Some?
    ensures Prepared(net, ev).Some? && Settle(net, Prepared(net, ev).value) == Canon(net, ev)
    ensures var e := Prepared(net, ev).value;
      && e.kind == ev.kind && CanonValue(net, ev.kind, ev.value) == Some(e.value) && e.meta == PortMeta(net, ev) && e.input == ev.input
      && e.info == WithInfo(e.meta, ev.info) && e.target.url == ev.target.url && e.target.sni == ev.target.sni
  {
  }

  /** The event in the middle of normalize, its target canonical for the first time. */
  function Retargeted(net: Net, ev: Event): Event
    requires Canon(net, ev).Some?
  {
    Retarget(net, Prepared(net, ev).value).value
  }

  lemma RetargetedShape(net: Net, ev: Event)
    requires Canon(net, ev).Some?
    ensures var e := Prepared(net, ev).value; var e1 := Retargeted(net, ev);
      && e1 == e.(target := e1.target) && CanonTarget(net, e.target) == Some(e1.target) && Rebound(net, e1).Some?
  {
    PreparedShape(net, ev);
  }

  /** What the proof of idempotence needs. */
  predicate Steady(net: Net, ev: Event)
    requires Canon(net, ev).Some?
  {
    SteadyRest(net, ev) && PortStable(net, ev) && GoodValue(net, Retargeted(net, ev))
  }

  lemma SettleGood(net: Net, ev: Event)
    requires Lawful(net) && Canon(net, ev).Some? && Steady(net, ev)
    ensures Settle(net, Canon(net, ev).value) == Canon(net, ev)
  {
    PreparedShape(net, ev);
    SettleAgain(net, Prepared(net, ev).value);
  }

  lemma ResultValueAgain(net: Net, ev: Event)
    requires Lawful(net) && Canon(net, ev).Some? && Steady(net, ev)
    ensures CanonValue(net, ev.kind, Canon(net, ev).value.value) == Some(Canon(net, ev).value.value)
  {
    KindsDiffer();
    PreparedShape(net, ev);
    RetargetedShape(net, ev);
    var e1 := Retargeted(net, ev);
    SettleRecord(net, Prepared(net, ev).value);
    if ev.kind == KIND_SERVICE {
      AgainService(net, e1);
      ServiceShape(net, e1.value);
      TrimmedAgain(net, KIND_SERVICE, ServiceValue(net, e1.value));
    } else {
      GoodSame(net, e1, ev.(value := e1.value));
      ValueAgain(net, ev, e1.value);
    }
  }

  lemma GoodSame(net: Net, e: Event, e': Event)
    requires GoodValue(net, e) && e'.kind == e.kind && e'.value == e.value && e.kind != KIND_SERVICE
    ensures GoodValue(net, e')
  {
  }

  lemma SteadyIdempotent(net: Net, ev: Event)
    requires Lawful(net) && Canon(net, ev).Some? && Steady(net, ev)
    ensures Canon(net, Canon(net, ev).value) == Canon(net, ev)
  {
    var r := Canon(net, ev).value;
    PreparedShape(net, ev);
    SettleGood(net, ev);
    SettleRecord(net, Prepared(net, ev).value);
    ResultValueAgain(net, ev);
    PortMetaAgain(net, ev, r);
    InfoAgain(r.meta, ev.info);
    assert r.(value := r.value, meta := r.meta) == r && r.(info := r.info) == r;
  }

  // ---------------------------------------------------------------- names

  /** The name of an accepted name event, computed without any hypothesis. */
  lemma NameResult(net: Net, ev: Event)
    requires NameKind(ev.kind) && Canon(net, ev).Some?
    ensures var r := Canon(net, ev).value;
      r.kind == ev.kind && r.value == CanonFQDN(ev.value) && r.target.name == CanonFQDN(r.value) && ValidName(r.target.name)
  {
    KindsDiffer();
    PreparedShape(net, ev);
    var e := Prepared(net, ev).value;
    SettleRecord(net, e);
    var t1 := Retarget(net, e).value.target;
    assert BindKind(net, Retarget(net, e).value).value.target.name == e.value;
  }

  /** An accepted name event is named after its value exactly when its value settles in one call. */
  lemma NameAgreesIff(net: Net, ev: Event)
    requires NameKind(ev.kind) && Canon(net, ev).Some?
    ensures Canon(net, ev).value.target.name == Canon(net, ev).value.value <==> Settled(ev.value)
  {
    NameResult(net, ev);
    CanonFQDNSettled(ev.value);
  }

  lemma CanonValueOf(net: Net, ev: Event)
    requires Canon(net, ev).Some? && ev.kind != KIND_SERVICE
    ensures CanonValue(net, ev.kind, ev.value) == Some(Canon(net, ev).value.value) && Canon(net, ev).value.meta == PortMeta(net, ev)
    ensures Canon(net, ev).value.kind == ev.kind
  {
    PreparedShape(net, ev);
    SettleRecord(net, Prepared(net, ev).value);
  }

  lemma SteadyName(net: Net, ev: Event)
    requires NameKind(ev.kind) && SteadyRest(net, ev) && Canon(net, ev).Some? && Settled(ev.value)
    ensures Steady(net, ev)
  {
    KindsDiffer();
    PreparedShape(net, ev);
    RetargetedShape(net, ev);
    CanonFQDNSettled(ev.value);
  }

  /** For names, one call is enough exactly when the value does not end in two dots or in a space and a dot. */
  lemma NameIdempotentIff(net: Net, ev: Event)
    requires Lawful(net) && NameKind(ev.kind) && SteadyRest(net, ev) && Canon(net, ev).Some?
    ensures Canon(net, Canon(net, ev).value) == Canon(net, ev) <==> Settled(ev.value)
  {
    KindsDiffer();
    var r := Canon(net, ev).value;
    NameResult(net, ev);
    CanonFQDNSettled(ev.value);
    if Settled(ev.value) {
      SteadyName(net, ev);
      SteadyIdempotent(net, ev);
    } else if Canon(net, r) == Some(r) {
      CanonValueOf(net, r);
    }
  }

  // ---------------------------------------------------------------- ports

  /** The host of a port value keeps its text: an address, or a name that settles in one call, is no IPv6
      address then, and has no bracket. */
  predicate CleanText(net: Net, host: string) {
    || net.parse(TrimSpace(host)).Some?
    || (CanonFQDN(host) != "" && CanonFQDN(host)[0] != '[' && Settled(host) && !IsSix(net, CanonFQDN(host)))
  }

  lemma AcceptedPort(net: Net, ev: Event, e: Endpoint)
    requires ev.kind == KIND_PORT && Canon(net, ev).Some? && CanonPort(net, ev.value).Some?
    requires SplitLoose(CanonPort(net, ev.value).value) == e
    ensures var t := Bind(net, Retarget(net, Prepared(net, ev).value).value.target, e.host, e.port);
      t.Some? && TargetValid(DefaultTCP(t.value)) && Canon(net, ev).value.target.port == e.port
  {
    KindsDiffer();
    PreparedShape(net, ev);
  }

  /** A name in front of the port, unchanged by a second call. */
  lemma SettledEndpoint(net: Net, host: string, port: int)
    requires Lawful(net) && net.parse(TrimSpace(host)).None? && TrimSpace(host) != "" && CleanText(net, host) && 1 <= port <= 65535
    ensures var r := CanonFQDN(host);
      && PortValue(net, host, port) == Some(r + (":" + Itoa(port))) && SplitHostPort(r + (":" + Itoa(port))) == Some(Endpoint(r, port))
      && CanonHost(net, r).Some? && CanonHost(net, r).value.text == r && CanonFQDN(r) == r && TrimSpace(r) == r
      && PortValue(net, r, port) == Some(r + (":" + Itoa(port)))
  {
    var r := CanonFQDN(host);
    TrimmedHost(host);
    SettledTrimmed(host);
    TrimSpaceTrims(r);
    Hosts.SplitPlain(r, port);
    PlainAgain(net, r, port);
    if net.parse(r).Some? { assert ParsedFits(net, r, net.parse(r).value); }
  }

  lemma NamedEndpointGood(net: Net, r: string, port: int)
    requires Lawful(net) && CanonHost(net, r).Some? && CanonHost(net, r).value.text == r && TrimSpace(r) == r && r != ""
    requires net.parse(r).None? ==> CanonFQDN(r) == r
    requires SplitHostPort(r + (":" + Itoa(port))) == Some(Endpoint(r, port)) && PortValue(net, r, port) == Some(r + (":" + Itoa(port)))
    ensures GoodEndpoint(net, r + (":" + Itoa(port)))
  {
    if net.parse(r).Some? { assert ParsedFits(net, r, net.parse(r).value); }
  }

  lemma CleanNameGood(net: Net, ev: Event, e: Endpoint)
    requires Lawful(net) && ev.kind == KIND_PORT && Canon(net, ev).Some? && SplitHostPort(ev.value) == Some(e)
    requires net.parse(TrimSpace(e.host)).None? && TrimSpace(e.host) != "" && CleanText(net, e.host) && 1 <= e.port <= 65535
    ensures CanonPort(net, ev.value).Some? && GoodEndpoint(net, CanonPort(net, ev.value).value) && PortStable(net, ev)
  {
    var r := CanonFQDN(e.host);
    TrimmedHost(e.host);
    SettledEndpoint(net, e.host, e.port);
    NamedEndpointGood(net, r, e.port);
  }

  lemma CleanAddressGood(net: Net, ev: Event, e: Endpoint)
    requires Lawful(net) && ev.kind == KIND_PORT && SplitHostPort(ev.value) == Some(e)
    requires net.parse(TrimSpace(e.host)).Some? && 1 <= e.port <= 65535
    ensures CanonPort(net, ev.value).Some? && GoodEndpoint(net, CanonPort(net, ev.value).value) && PortStable(net, ev)
  {
    EndpointGood(net, e.host, e.port);
  }

  lemma CleanPortSteady(net: Net, ev: Event)
    requires Lawful(net) && ev.kind == KIND_PORT && SteadyRest(net, ev) && Canon(net, ev).Some?
    requires CanonPort(net, ev.value).Some? && CleanText(net, SplitHostPort(ev.value).value.host)
    ensures Steady(net, ev)
  {
    KindsDiffer();
    var e := SplitHostPort(ev.value).value;
    if net.parse(TrimSpace(e.host)).Some? {
      CleanAddressGood(net, ev, e);
    } else {
      CleanNameGood(net, ev, e);
    }
    PortIsGood(net, ev);
  }

  lemma PortIsGood(net: Net, ev: Event)
    requires ev.kind == KIND_PORT && Canon(net, ev).Some? && CanonPort(net, ev.value).Some?
    requires GoodEndpoint(net, CanonPort(net, ev.value).value)
    ensures GoodValue(net, Retargeted(net, ev))
  {
    KindsDiffer();
    PreparedShape(net, ev);
    RetargetedShape(net, ev);
  }

  lemma PortMetaHost(net: Net, ev: Event)
    requires ev.kind == KIND_PORT && SplitHostPort(ev.value).Some? && CanonHost(net, SplitHostPort(ev.value).value.host).Some?
    ensures Lookup(PortMeta(net, ev), "host") == CanonHost(net, SplitHostPort(ev.value).value.host).value.text
  {
  }

  /** A bracketed name keeps its value, but not the host in its metadata. */
  lemma BracketedMeta(net: Net, ev: Event, r: Event)
    requires Lawful(net) && ev.kind == KIND_PORT && r.kind == KIND_PORT && CanonPort(net, ev.value) == Some(r.value)
    requires var host := SplitHostPort(ev.value).value.host; net.parse(TrimSpace(host)).None? && BracketedSix(net, CanonFQDN(host))
    ensures PortMeta(net, r) != PortMeta(net, ev)
  {
    var e := SplitHostPort(ev.value).value;
    var b := CanonFQDN(e.host);
    var t := b[1..|b| - 1];
    TrimmedHost(e.host);
    TrimSpaceTrims(t);
    SplitBracketed(t, e.port);
    PortMetaHost(net, ev);
    PortMetaHost(net, r);
  }

  /** For ports, one call is enough exactly when the host keeps its text. */
  lemma PortIdempotentIff(net: Net, ev: Event)
    requires Lawful(net) && ev.kind == KIND_PORT && SteadyRest(net, ev) && Canon(net, ev).Some?
    ensures SplitHostPort(ev.value).Some?
    ensures Canon(net, Canon(net, ev).value) == Canon(net, ev) <==> CleanText(net, SplitHostPort(ev.value).value.host)
  {
    KindsDiffer();
    var r := Canon(net, ev).value;
    CanonValueOf(net, ev);
    var host := SplitHostPort(ev.value).value.host;
    if CleanText(net, host) {
      CleanPortSteady(net, ev);
      SteadyIdempotent(net, ev);
    } else {
      PortUnsettled(net, ev, r);
    }
  }

  lemma PortUnsettled(net: Net, ev: Event, r: Event)
    requires Lawful(net) && ev.kind == KIND_PORT && r.kind == KIND_PORT && CanonPort(net, ev.value) == Some(r.value)
    requires r.meta == PortMeta(net, ev) && !CleanText(net, SplitHostPort(ev.value).value.host)
    ensures Canon(net, r) != Some(r)
  {
    KindsDiffer();
    CanonPortSettles(net, ev.value);
    var host := SplitHostPort(ev.value).value.host;
    if Clean(net, host) { BracketedMeta(net, ev, r); }
    if Canon(net, r).Some? { CanonValueOf(net, r); }
  }

  // ---------------------------------------------------------------- services

  lemma {:induction false} TrimRightKeeps(s: string)
    requires s != "" && !IsSpace(s[0])
    ensures TrimRight(s) != "" && TrimRight(s)[0] == s[0]
  {
    if IsSpace(s[|s| - 1]) { TrimRightKeeps(s[..|s| - 1]); }
  }

  /** The first character of a name survives, up to its case, unless it is a space or the dot at the end. */
  lemma FirstKept(r: string)
    requires r != "" && !IsSpace(r[0]) && r[0] != '.'
    ensures CanonFQDN(r) != "" && CanonFQDN(r)[0] == LowerChar(r[0])
  {
    TrimRightKeeps(r);
  }

  /** A name whose canonical form is a valid DNS name does not start with a bracket. */
  lemma NoBracket(r: string)
    requires ValidName(CanonFQDN(r)) && r != "" && !IsSpace(r[0])
    ensures r[0] != '['
  {
    ValidNameCanonical(CanonFQDN(r));
    if r[0] != '.' {
      FirstKept(r);
      assert LabelChar(CanonFQDN(r)[0]) || CanonFQDN(r)[0] == '.';
    }
  }

  lemma LowerColon(s: string)
    ensures ':' in Lower(s) <==> ':' in s
  {
    forall i | 0 <= i < |s| ensures Lower(s)[i] == ':' <==> s[i] == ':' {}
    if ':' in s { var i :| 0 <= i < |s| && s[i] == ':'; assert Lower(s)[i] == ':'; }
  }

  lemma {:induction false} TrimRightColon(s: string)
    requires ':' in s
    ensures ':' in TrimRight(s)
  {
    if IsSpace(s[|s| - 1]) { TrimRightColon(s[..|s| - 1]); }
  }

  lemma {:induction false} TrimLeftColon(s: string)
    requires ':' in s
    ensures ':' in TrimLeft(s)
  {
    if IsSpace(s[0]) { TrimLeftColon(s[1..]); }
  }

  lemma ColonKept(r: string)
    requires ':' in r
    ensures ':' in CanonFQDN(r)
  {
    TrimLeftColon(r);
    TrimRightColon(TrimLeft(r));
    LowerColon(DropDot(TrimSpace(r)));
    var t := TrimSpace(r);
    var i :| 0 <= i < |t| && t[i] == ':';
    assert DropDot(t)[i] == ':';
  }

  /** Nor does it come from a text with a colon. */
  lemma NoColon(r: string)
    requires ValidName(CanonFQDN(r))
    ensures ':' !in r
  {
    NameHasNoColon(CanonFQDN(r));
    if ':' in r { ColonKept(r); }
  }

  lemma NameHasNoColon(t: string)
    requires ValidName(t)
    ensures ':' !in t
  {
    ValidNameCanonical(t);
    assert forall i :: 0 <= i < |t| ==> t[i] != ':';
  }

  /** Whoever accepts the target has validated the name that was bound to it. */
  lemma BoundNameValid(net: Net, t: Target, host: string, port: int)
    requires Bind(net, t, host, port).Some? && CanonIP(net, host).None? && CanonTarget(net, Bind(net, t, host, port).value).Some?
    ensures CanonFQDN(host) != "" && ValidName(CanonFQDN(CanonFQDN(host)))
    ensures CanonTarget(net, Bind(net, t, host, port).value).value.name == CanonFQDN(CanonFQDN(host))
  {
  }

  /** The host of an accepted service: an address, or a name that is valid up to one more dot. */
  predicate ServiceHost(net: Net, host: string) {
    net.parse(TrimSpace(host)).Some? || (CanonFQDN(host) != "" && ValidName(CanonFQDN(CanonFQDN(host))))
  }

  lemma ServiceHostText(net: Net, host: string)
    requires Lawful(net) && ServiceHost(net, host)
    ensures CanonHost(net, host).Some?
    ensures var h := CanonHost(net, host).value; h.text != "" && h.text[0] != '['
    ensures net.parse(TrimSpace(host)).None? ==> CanonHost(net, host) == Some(Host(CanonFQDN(host), false)) && ':' !in CanonFQDN(host)
  {
    TrimmedHost(host);
    TrimSpaceTrims(host);
    if net.parse(TrimSpace(host)).Some? {
      assert ParsedFits(net, TrimSpace(host), net.parse(TrimSpace(host)).value);
    } else {
      TrimmedParts(host);
      NoBracket(CanonFQDN(host));
      NoColon(CanonFQDN(host));
      assert TrimSpace(host) == "" ==> CanonFQDN(host) == "";
    }
  }

  function ServiceEndpoint(ev: Event): Option<Endpoint> {
    var v := TrimSpace(ev.value);
    if Cut(v) then SplitHostPort(Before(v)) else None
  }

  /** What an accepted service event says, computed without any hypothesis. */
  lemma ServiceResult(net: Net, ev: Event)
    requires Lawful(net) && ev.kind == KIND_SERVICE && Canon(net, ev).Some?
    ensures ServiceText(net, TrimSpace(ev.value)) && ServiceEndpoint(ev).Some?
    ensures Retargeted(net, ev).value == TrimSpace(ev.value) && Retargeted(net, ev).kind == KIND_SERVICE
    ensures var e := ServiceEndpoint(ev).value; var r := Canon(net, ev).value; var t := Retargeted(net, ev).target;
      && ServiceHost(net, e.host) && Bind(net, t, e.host, e.port).Some?
      && CanonTarget(net, Bind(net, t, e.host, e.port).value) == Some(r.target)
      && r.kind == KIND_SERVICE && r.value == ServiceValue(net, TrimSpace(ev.value)) && r.service == Lower(Behind(TrimSpace(ev.value)))
  {
    KindsDiffer();
    PreparedShape(net, ev);
    RetargetedShape(net, ev);
    SettleRecord(net, Prepared(net, ev).value);
    ServiceValueOf(net, ev);
    ServiceAccepted(net, Retargeted(net, ev));
  }

  lemma ServiceValueOf(net: Net, ev: Event)
    requires ev.kind == KIND_SERVICE && Canon(net, ev).Some?
    ensures CanonValue(net, ev.kind, ev.value) == Some(TrimSpace(ev.value)) && Trimmed(TrimSpace(ev.value)) && TrimSpace(ev.value) != ""
  {
    TrimSpaceTrims(ev.value);
    assert |KIND_NETBLOCK| == 8 && |KIND_SERVICE| == 7 && |KIND_PORT| == 4 && |KIND_IP| == 2;
    assert |KIND_URL| == 3 && |KIND_SCREENSHOT| == 10 && |KIND_FQDN| == 4 && |KIND_DOMAIN| == 6;
  }

  lemma ServiceAccepted(net: Net, e1: Event)
    requires Lawful(net) && e1.kind == KIND_SERVICE && Rebound(net, e1).Some? && e1.value != "" && Trimmed(e1.value)
    ensures ServiceText(net, e1.value)
    ensures var e := SplitHostPort(Before(e1.value)).value; var r := Rebound(net, e1).value;
      && ServiceHost(net, e.host) && Bind(net, e1.target, e.host, e.port).Some?
      && CanonTarget(net, Bind(net, e1.target, e.host, e.port).value) == Some(r.target)
      && r.value == ServiceValue(net, e1.value) && r.service == Lower(Behind(e1.value))
  {
    KindsDiffer();
    var e := SplitHostPort(Before(e1.value)).value;
    if CanonIP(net, e.host).None? { BoundNameValid(net, e1.target, e.host, e.port); }
    ServiceHostText(net, e.host);
    ReboundService(net, e1, e);
  }

  /** The address an event gives for its target, in metadata if it is old. */
  function GivenHost(net: Net, ev: Event): string {
    if ev.target.host == "" && ev.schemaVersion < SCHEMA_VERSION then LegacyHost(net, ev) else ev.target.host
  }

  lemma PromotedHost(net: Net, e: Event)
    requires Promote(net, e).Some?
    ensures Promote(net, e).value.target.host == GivenHost(net, e)
  {
  }

  lemma PreparedHost(net: Net, ev: Event)
    requires ev.kind == KIND_SERVICE && Prepared(net, ev).Some?
    ensures Prepared(net, ev).value.target.host == GivenHost(net, ev)
  {
    KindsDiffer();
    var e := ev.(value := CanonValue(net, ev.kind, ev.value).value, meta := PortMeta(net, ev));
    PromotedHost(net, e.(info := WithInfo(e.meta, e.info)));
    assert PortMeta(net, ev) == ev.meta;
  }

  lemma GivenKept(net: Net, ev: Event)
    requires ev.kind == KIND_SERVICE && Canon(net, ev).Some?
    ensures CanonOptional(GivenHost(net, ev), s => CanonIP(net, s)) == Some(Retargeted(net, ev).target.host)
  {
    PreparedShape(net, ev);
    PreparedHost(net, ev);
    RetargetedShape(net, ev);
  }

  /** One call is enough for a service: its host is an address; or a name that does not end in two dots (or
      a space and a dot) and that losing its dot does not turn into an address, unless the event gives that
      address for its target. */
  predicate ServiceSettles(net: Net, ev: Event) {
    && ServiceEndpoint(ev).Some?
    && var host := ServiceEndpoint(ev).value.host;
       || net.parse(TrimSpace(host)).Some?
       || (Settled(host) && (net.parse(CanonFQDN(host)).None? || CanonIP(net, GivenHost(net, ev)) == Some(CanonFQDN(host))))
  }

  lemma SettledServiceHost(net: Net, host: string)
    requires Lawful(net) && ServiceHost(net, host) && Settled(host) && net.parse(TrimSpace(host)).None?
    ensures if net.parse(CanonFQDN(host)).None? then Settles(net, host) else Dotted(net, host)
  {
    var r := CanonFQDN(host);
    ServiceHostText(net, host);
    CanonFQDNSettled(host);
    if net.parse(r).Some? { assert ParsedFits(net, r, net.parse(r).value); }
  }

  lemma SteadyService(net: Net, ev: Event)
    requires Lawful(net) && ev.kind == KIND_SERVICE && Canon(net, ev).Some? && ServiceSettles(net, ev)
    ensures GoodService(net, Retargeted(net, ev))
  {
    ServiceResult(net, ev);
    GivenKept(net, ev);
    var host := ServiceEndpoint(ev).value.host;
    if net.parse(TrimSpace(host)).None? {
      SettledServiceHost(net, host);
      if Dotted(net, host) { GivenThere(net, GivenHost(net, ev), CanonFQDN(host)); }
    }
  }

  lemma GivenThere(net: Net, given: string, r: string)
    requires Lawful(net) && CanonIP(net, given) == Some(r)
    ensures CanonOptional(given, s => CanonIP(net, s)) == Some(r) && r != ""
  {
    TrimSpaceTrims(given);
    CanonIPAgain(net, given);
  }

  /** What a second call makes of a service. */
  lemma ServiceTwice(net: Net, ev: Event)
    requires Lawful(net) && ev.kind == KIND_SERVICE && Canon(net, ev).Some? && Canon(net, Canon(net, ev).value) == Canon(net, ev)
    ensures ServiceEndpoint(ev).Some? && CanonHost(net, ServiceEndpoint(ev).value.host).Some?
    ensures var e := ServiceEndpoint(ev).value; var r := Canon(net, ev).value; var h := CanonHost(net, e.host).value;
      && ServiceFits(net, r.value, h, e.port, r.service) && CanonHost(net, h.text).Some?
      && PortText(net, h, e.port) == PortText(net, CanonHost(net, h.text).value, e.port)
      && (CanonIP(net, h.text).Some? ==> r.target.host == CanonIP(net, h.text).value)
      && r.target.port == e.port
  {
    var r := Canon(net, ev).value;
    ServiceResult(net, ev);
    ServiceShape(net, TrimSpace(ev.value));
    var e := ServiceEndpoint(ev).value;
    var h := CanonHost(net, e.host).value;
    ServiceResult(net, r);
    StableParts(net, r, h, e.port);
    BoundTwice(net, Retargeted(net, r).target, h.text, e.port);
  }

  lemma StableParts(net: Net, r: Event, h: Host, port: int)
    requires ServiceFits(net, r.value, h, port, r.service) && ServiceText(net, r.value) && r.value == ServiceValue(net, r.value)
    ensures ServiceEndpoint(r) == Some(Endpoint(h.text, port)) && CanonHost(net, h.text).Some?
    ensures PortText(net, h, port) == PortText(net, CanonHost(net, h.text).value, port)
  {
    CutJoin(r.value);
    LowerSame(Behind(r.value), PortText(net, CanonHost(net, h.text).value, port), Before(r.value));
  }

  lemma LowerSame(service: string, a: string, b: string)
    requires a + ("/" + Lower(service)) == b + ("/" + service)
    ensures a == b
  {
    var x, y := a + ("/" + Lower(service)), b + ("/" + service);
    assert |x| == |y| && |a| == |b|;
    assert a == x[..|a|] && b == y[..|b|];
  }

  lemma BoundTwice(net: Net, t: Target, host: string, port: int)
    requires Lawful(net) && Bind(net, t, host, port).Some? && CanonTarget(net, Bind(net, t, host, port).value).Some?
    ensures var t' := CanonTarget(net, Bind(net, t, host, port).value).value;
      t'.port == port && (CanonIP(net, host).Some? ==> t'.host == CanonIP(net, host).value)
  {
    if CanonIP(net, host).Some? { CanonIPAgain(net, host); }
  }

  /** The first call leaves the given address alone if the value names none. */
  lemma GivenStays(net: Net, t: Target, host: string, port: int)
    requires Lawful(net) && Bind(net, t, host, port).Some? && CanonIP(net, host).None?
    requires CanonTarget(net, Bind(net, t, host, port).value).Some? && (t.host != "" ==> CanonIP(net, t.host) == Some(t.host))
    ensures CanonTarget(net, Bind(net, t, host, port).value).value.host == t.host
  {
  }

  lemma GivenFixed(net: Net, ev: Event)
    requires Lawful(net) && Canon(net, ev).Some?
    ensures var t := Retargeted(net, ev).target; t.host != "" ==> CanonIP(net, t.host) == Some(t.host)
  {
    RetargetedShape(net, ev);
    var t := Prepared(net, ev).value.target;
    if t.host != "" { CanonIPAgain(net, t.host); }
  }

  lemma GivenAddress(net: Net, ev: Event, e: Endpoint, r: string)
    requires Lawful(net) && ev.kind == KIND_SERVICE && Canon(net, ev).Some? && ServiceEndpoint(ev) == Some(e)
    requires CanonIP(net, e.host).None? && Canon(net, ev).value.target.host == r && r != ""
    ensures CanonIP(net, GivenHost(net, ev)) == Some(r)
  {
    ServiceResult(net, ev);
    GivenFixed(net, ev);
    GivenStays(net, Retargeted(net, ev).target, e.host, e.port);
    GivenKept(net, ev);
  }

  /** A service that a second call does not change settles in one call. */
  lemma StableServiceSettles(net: Net, ev: Event)
    requires Lawful(net) && ev.kind == KIND_SERVICE && Canon(net, ev).Some? && Canon(net, Canon(net, ev).value) == Canon(net, ev)
    ensures ServiceSettles(net, ev)
  {
    ServiceTwice(net, ev);
    ServiceResult(net, ev);
    var e := ServiceEndpoint(ev).value;
    if net.parse(TrimSpace(e.host)).None? {
      ServiceHostText(net, e.host);
      NamedStable(net, e.host, e.port);
      StableNameSettles(net, ev, e);
    }
  }

  lemma StableNameSettles(net: Net, ev: Event, e: Endpoint)
    requires Lawful(net) && ev.kind == KIND_SERVICE && Canon(net, ev).Some? && ServiceEndpoint(ev) == Some(e)
    requires ServiceHost(net, e.host) && net.parse(TrimSpace(e.host)).None? && Settled(e.host)
    requires var r := CanonFQDN(e.host); CanonIP(net, r).Some? ==> Canon(net, ev).value.target.host == CanonIP(net, r).value
    ensures ServiceSettles(net, ev)
  {
    if net.parse(CanonFQDN(e.host)).Some? {
      SettledServiceHost(net, e.host);
      DottedHost(net, e.host);
      GivenAddress(net, ev, e, CanonFQDN(e.host));
    }
  }

  lemma NamedStable(net: Net, host: string, port: int)
    requires Lawful(net) && 1 <= port <= 65535 && CanonHost(net, host) == Some(Host(CanonFQDN(host), false))
    requires CanonFQDN(host) != "" && CanonFQDN(host)[0] != '[' && CanonHost(net, CanonFQDN(host)).Some?
    requires PortText(net, CanonHost(net, host).value, port) == PortText(net, CanonHost(net, CanonFQDN(host)).value, port)
    ensures Settled(host)
  {
    if !Settled(host) { UnsettledAgain(net, CanonFQDN(host), port); }
  }

  /** For services, one call is enough exactly when the host settles. */
  lemma ServiceIdempotentIff(net: Net, ev: Event)
    requires Lawful(net) && ev.kind == KIND_SERVICE && SteadyRest(net, ev) && Canon(net, ev).Some?
    ensures Canon(net, Canon(net, ev).value) == Canon(net, ev) <==> ServiceSettles(net, ev)
  {
    KindsDiffer();
    if ServiceSettles(net, ev) {
      SteadyService(net, ev);
      ServiceResult(net, ev);
      SteadyIdempotent(net, ev);
    }
    if Canon(net, Canon(net, ev).value) == Canon(net, ev) {
      StableServiceSettles(net, ev);
    }
  }

  // ---------------------------------------------------------------- URLs

  /** The host in the value of an accepted URL or screenshot. */
  function WebUrl(net: Net, ev: Event): Option<Url> {
    Parse(net, TrimSpace(ev.value))
  }

  lemma WebResult(net: Net, ev: Event)
    requires Lawful(net) && WebKind(ev.kind) && Canon(net, ev).Some?
    ensures CanonURL(net, ev.value) == Some(Canon(net, ev).value.value) && Canon(net, ev).value.kind == ev.kind
    ensures WebUrl(net, ev).Some? && Retargeted(net, ev).value == Canon(net, ev).value.value && Retargeted(net, ev).kind == ev.kind
  {
    KindsDiffer();
    CanonValueOf(net, ev);
    AcceptedParts(net, ev.value);
    PreparedShape(net, ev);
    RetargetedShape(net, ev);
  }

  /** For URLs and screenshots, one call is enough exactly when the host is an address, or does not end in
      two dots. */
  lemma WebIdempotentIff(net: Net, ev: Event)
    requires Lawful(net) && WebKind(ev.kind) && SteadyRest(net, ev) && Canon(net, ev).Some?
    ensures WebUrl(net, ev).Some?
    ensures Canon(net, Canon(net, ev).value) == Canon(net, ev) <==> SteadyHost(net, WebUrl(net, ev).value.host)
  {
    KindsDiffer();
    WebResult(net, ev);
    CanonURLSettles(net, ev.value);
    CanonURLText(net, ev.value);
    if SteadyHost(net, WebUrl(net, ev).value.host) {
      SteadyIdempotent(net, ev);
    } else if Canon(net, Canon(net, ev).value) == Canon(net, ev) {
      CanonValueOf(net, Canon(net, ev).value);
    }
  }

  // ---------------------------------------------------------------- all kinds

  /** The host names in the value reach their canonical form in one call. */
  predicate ValueSettles(net: Net, ev: Event) {
    if NameKind(ev.kind) then Settled(ev.value)
    else if ev.kind == KIND_PORT then SplitHostPort(ev.value).Some? && CleanText(net, SplitHostPort(ev.value).value.host)
    else if ev.kind == KIND_SERVICE then ServiceSettles(net, ev)
    else if WebKind(ev.kind) then WebUrl(net, ev).Some? && SteadyHost(net, WebUrl(net, ev).value.host)
    else true
  }

  lemma OtherIdempotent(net: Net, ev: Event)
    requires Lawful(net) && SteadyRest(net, ev) && Canon(net, ev).Some?
    requires !NameKind(ev.kind) && ev.kind != KIND_PORT && ev.kind != KIND_SERVICE && !WebKind(ev.kind)
    ensures Canon(net, Canon(net, ev).value) == Canon(net, ev)
  {
    KindsDiffer();
    PreparedShape(net, ev);
    RetargetedShape(net, ev);
    if ev.kind == KIND_IP { CanonIPAgain(net, ev.value); }
    SteadyIdempotent(net, ev);
  }

  /** Idempotence: given that the hosts beside the value settle, Canonical's result is its own canonical
      form exactly when those in the value do. */
  lemma CanonIdempotentIff(net: Net, ev: Event)
    requires Lawful(net) && SteadyRest(net, ev) && Canon(net, ev).Some?
    ensures Canon(net, Canon(net, ev).value) == Canon(net, ev) <==> ValueSettles(net, ev)
  {
    KindsDiffer();
    if NameKind(ev.kind) {
      NameIdempotentIff(net, ev);
    } else if ev.kind == KIND_PORT {
      PortIdempotentIff(net, ev);
    } else if ev.kind == KIND_SERVICE {
      ServiceIdempotentIff(net, ev);
    } else if WebKind(ev.kind) {
      WebIdempotentIff(net, ev);
    } else {
      OtherIdempotent(net, ev);
    }
  }

  /** A current event without metadata is its own canonical form if its value, its target and their binding
      are. */
  lemma CanonFixed(net: Net, ev: Event)
    requires ev.schemaVersion == SCHEMA_VERSION && ev.meta == map[] && ev.info == map[] && ev.input == None && ev.kind != KIND_PORT
    requires CanonValue(net, ev.kind, ev.value) == Some(ev.value) && Fixed(net, ev.target) && BindKind(net, ev) == Some(ev)
    ensures Canon(net, ev) == Some(ev)
  {
    assert WithInfo(ev.meta, ev.info) == ev.info && ev.(info := ev.info) == ev;
    SettledStays(net, ev, ev);
    assert ev.(value := ev.value, meta := ev.meta) == ev;
  }
}
