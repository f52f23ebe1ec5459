/** How a canonical target is bound to the host and port of an event's value, kind by kind: when binding
    twice is binding once. */
module CanonicalBinding {
  import opened Wrappers
  import opened Text
  import opened Decimal
  import opened Events
  import opened Hosts
  import opened Urls
  import opened Canonical

  // ---------------------------------------------------------------- targets

  predicate SteadyURL(net: Net, url: string) {
    url == "" || (Parse(net, TrimSpace(url)).Some? && SteadyHost(net, Parse(net, TrimSpace(url)).value.host))
  }

  /** The host names that Target.Canonical rewrites reach their canonical form in one call. */
  predicate SteadyTarget(net: Net, t: Target) {
    SteadyURL(net, t.url) && Settled(t.sni)
  }

  /** The same for all targets of an event, its value aside. */
  predicate SteadyRest(net: Net, ev: Event) {
    SteadyTarget(net, ev.target) && (ev.input.Some? ==> SteadyTarget(net, ev.input.value.target))
  }

  /** Nothing in this target is left to rewrite. */
  predicate Fixed(net: Net, t: Target) {
    CanonTarget(net, t) == Some(t)
  }

  lemma CanonIPAgain(net: Net, s: string)
    requires Lawful(net) && CanonIP(net, s).Some?
    ensures CanonIP(net, CanonIP(net, s).value) == CanonIP(net, s) && CanonIP(net, s).value != ""
  {
    TrimSpaceTrims(s);
    var t := net.parse(TrimSpace(s)).value;
    assert ParsedFits(net, TrimSpace(s), t);
    TrimSpaceTrims(t);
  }

  /** A canonical URL is not empty. */
  lemma CanonURLText(net: Net, url: string)
    requires CanonURL(net, url).Some?
    ensures CanonURL(net, url).value != ""
  {
  }

  lemma SteadyURLAgain(net: Net, url: string)
    requires Lawful(net) && url != "" && CanonURL(net, url).Some?
    ensures var v := CanonURL(net, url).value; CanonURL(net, v) == Some(v) <==> SteadyURL(net, url)
    ensures var v := CanonURL(net, url).value; CanonURL(net, v) == Some(v) ==> SteadyURL(net, v)
  {
    CanonURLSettles(net, url);
    var v := CanonURL(net, url).value;
    if CanonURL(net, v) == Some(v) { CanonURLSettles(net, v); }
  }

  lemma SettledAgain(s: string)
    ensures CanonFQDN(CanonFQDN(s)) == CanonFQDN(s) <==> Settled(s)
    ensures Settled(s) ==> Settled(CanonFQDN(s))
  {
    CanonFQDNSettled(s);
    CanonFQDNSettled(CanonFQDN(s));
  }

  /** What Fixed says field by field. */
  lemma FixedFields(net: Net, t: Target)
    ensures Fixed(net, t) <==>
      && (t.host == "" || CanonIP(net, t.host) == Some(t.host))
      && (t.url == "" || CanonURL(net, t.url) == Some(t.url))
      && TargetValid(t) && CanonName(t.name) == t.name && RoleOf(t) == t.nameRole && CanonFQDN(t.sni) == t.sni
  {
  }

  lemma NameAgain(t: Target, t': Target)
    requires TargetValid(t) && t'.name == CanonName(t.name) && t'.nameRole == RoleOf(t) && t'.port == t.port && t'.proto == t.proto
    ensures TargetValid(t') && CanonName(t'.name) == t'.name && RoleOf(t') == t'.nameRole
  {
    if t.name != "" { ValidNameCanonical(CanonFQDN(t.name)); }
  }

  /** A canonical target is its own canonical form exactly when its URL and its server name reach theirs in
      one call. */
  lemma CanonTargetAgain(net: Net, t: Target)
    requires Lawful(net) && CanonTarget(net, t).Some?
    ensures Fixed(net, CanonTarget(net, t).value) <==> SteadyTarget(net, t)
    ensures SteadyTarget(net, t) ==> SteadyTarget(net, CanonTarget(net, t).value)
  {
    var t' := CanonTarget(net, t).value;
    NameAgain(t, t');
    SettledAgain(t.sni);
    if t.host != "" { CanonIPAgain(net, t.host); }
    if t.url != "" {
      CanonURLText(net, t.url);
      SteadyURLAgain(net, t.url);
    }
    FixedFields(net, t');
  }

  // ---------------------------------------------------------------- binding

  /** Target `t` is bound to this canonical host and port. */
  predicate Bound(t: Target, h: Host, port: int) {
    t.port == port && if h.ip then t.host == h.text else t.name == h.text
  }

  /** Only host, name and port were filled in, and only where nothing was given. */
  predicate Filled(t: Target, t': Target) {
    && t' == t.(host := t'.host, name := t'.name, nameRole := t'.nameRole, port := t'.port)
    && (t.host == "" || t'.host == t.host) && (t.port == 0 || t'.port == t.port)
    && (t.name == "" || (t'.name == t.name && t'.nameRole == t.nameRole))
  }

  /** Binding fills gaps and alters nothing that was given; the target then names this host and port, and
      binding it to them once more changes nothing. */
  lemma BindBinds(net: Net, t: Target, host: string, port: int)
    requires Bind(net, t, host, port).Some?
    ensures var t' := Bind(net, t, host, port).value;
      && Filled(t, t') && t'.port == port
      && (if CanonIP(net, host).Some? then t'.host == CanonIP(net, host).value else t'.name == CanonFQDN(host))
      && Bind(net, t', host, port) == Some(t')
  {
  }

  lemma BindGood(net: Net, t: Target, host: string, port: int)
    requires Lawful(net) && Settles(net, host) && Bind(net, t, host, port).Some?
    ensures CanonHost(net, host).Some? && Bound(Bind(net, t, host, port).value, CanonHost(net, host).value, port)
  {
    TrimmedHost(host);
    SettlesGood(net, host);
  }

  lemma BindBound(net: Net, t: Target, h: Host, port: int)
    requires GoodHost(net, h) && Bound(t, h, port)
    ensures Bind(net, t, h.text, port) == Some(t)
  {
  }

  /** Making a bound target canonical keeps it bound. */
  lemma BoundStays(net: Net, t: Target, h: Host, port: int)
    requires GoodHost(net, h) && Bound(t, h, port) && CanonTarget(net, t).Some?
    ensures Bound(CanonTarget(net, t).value, h, port)
  {
  }

  // ---------------------------------------------------------------- kinds, one by one

  /** The second half of Settle for an event whose target is already canonical. */
  function Rebound(net: Net, ev: Event): Option<Event> {
    var e := BindKind(net, ev);
    if e.None? then None else Retarget(net, e.value)
  }

  /** The value names a host and a port, both in canonical form. */
  predicate GoodEndpoint(net: Net, v: string) {
    var e := SplitHostPort(v);
    && e.Some? && CanonHost(net, e.value.host).Some? && GoodHost(net, CanonHost(net, e.value.host).value)
    && CanonHost(net, e.value.host).value.text == e.value.host && PortValue(net, e.value.host, e.value.port) == Some(v)
  }

  lemma KindsDiffer()
    ensures KIND_IP != KIND_PORT && KIND_IP != KIND_SERVICE && KIND_PORT != KIND_SERVICE && !NameKind(KIND_IP)
    ensures !NameKind(KIND_PORT) && !NameKind(KIND_SERVICE) && !WebKind(KIND_PORT) && !WebKind(KIND_SERVICE) && !WebKind(KIND_IP)
    ensures forall k :: WebKind(k) ==> !NameKind(k) && k != KIND_IP && k != KIND_PORT && k != KIND_SERVICE
  {
    assert |KIND_FQDN| == 4 && |KIND_DOMAIN| == 6 && |KIND_IP| == 2 && |KIND_PORT| == 4 && |KIND_SERVICE| == 7;
    assert |KIND_URL| == 3 && |KIND_SCREENSHOT| == 10 && KIND_PORT[0] != KIND_FQDN[0];
  }

  lemma AgainIP(net: Net, ev: Event)
    requires Lawful(net) && ev.kind == KIND_IP && ev.value != "" && CanonIP(net, ev.value) == Some(ev.value) && Rebound(net, ev).Some?
    ensures var r := Rebound(net, ev).value; BindKind(net, r) == Some(r)
  {
  }

  lemma AgainName(net: Net, ev: Event)
    requires Lawful(net) && NameKind(ev.kind) && ev.value != "" && CanonFQDN(ev.value) == ev.value && Rebound(net, ev).Some?
    ensures var r := Rebound(net, ev).value; BindKind(net, r) == Some(r)
  {
    KindsDiffer();
  }

  lemma AgainPort(net: Net, ev: Event)
    requires Lawful(net) && ev.kind == KIND_PORT && GoodEndpoint(net, ev.value) && Rebound(net, ev).Some?
    ensures var r := Rebound(net, ev).value; BindKind(net, r) == Some(r)
  {
    KindsDiffer();
    var e := SplitHostPort(ev.value).value;
    var h := CanonHost(net, e.host).value;
    GoodSettles(net, h);
    BindGood(net, ev.target, e.host, e.port);
    var t := DefaultTCP(Bind(net, ev.target, e.host, e.port).value);
    BoundStays(net, t, h, e.port);
    BindBound(net, CanonTarget(net, t).value, h, e.port);
  }

  // ---------------------------------------------------------------- URLs

  /** The host of a URL in canonical form. */
  lemma GoodURL(net: Net, v: string)
    requires Lawful(net) && CanonURL(net, v) == Some(v)
    ensures TrimSpace(v) == v && Parse(net, v).Some?
    ensures var u := Parse(net, v).value; CanonHost(net, u.host).Some? && GoodHost(net, CanonHost(net, u.host).value)
    ensures var u := Parse(net, v).value; CanonHost(net, u.host).value.text == u.host
  {
    AcceptedParts(net, v);
    CanonURLReads(net, v);
    var u := Parse(net, v).value;
    CanonWebHost(net, u.host);
    TextTrimmed(u.host);
  }

  /** The target a canonical URL gives, as far as binding depends on it. */
  predicate FromFits(net: Net, from: Target, h: Host) {
    && GoodHost(net, h) && Authority(from) == h.text && 1 <= from.port <= 65535 && from.proto == TCP && from.httpHost != ""
    && CanonFQDN(from.sni) == from.sni && from.url != "" && CanonURL(net, from.url) == Some(from.url)
  }

  lemma GoodFrom(net: Net, v: string)
    requires Lawful(net) && v != "" && CanonURL(net, v) == Some(v)
    ensures Parse(net, v).Some? && CanonHost(net, Parse(net, v).value.host).Some? && URLTarget(net, v).Some?
    ensures var u := Parse(net, v).value; var from := URLTarget(net, v).value;
      FromFits(net, from, CanonHost(net, u.host).value) && from.port == PortNumber(u) && from.url == v
  {
    GoodURL(net, v);
    URLTargetNames(net, v);
    AcceptedParts(net, v);
  }

  lemma AgainWeb(net: Net, ev: Event)
    requires Lawful(net) && WebKind(ev.kind) && ev.value != "" && CanonURL(net, ev.value) == Some(ev.value)
    requires Fixed(net, ev.target) && Rebound(net, ev).Some?
    ensures var r := Rebound(net, ev).value; BindKind(net, r) == Some(r)
    ensures Parse(net, ev.value).Some? && CanonHost(net, Parse(net, ev.value).value.host).Some?
    ensures var u := Parse(net, ev.value).value; var r := Rebound(net, ev).value;
      Bound(r.target, CanonHost(net, u.host).value, PortNumber(u)) && r.tls == Tls(ev.value)
  {
    KindsDiffer();
    GoodFrom(net, ev.value);
    var u := Parse(net, ev.value).value;
    WebBinds(net, ev, URLTarget(net, ev.value).value, CanonHost(net, u.host).value);
  }

  lemma WebTarget(net: Net, t0: Target, from: Target, h: Host)
    requires Lawful(net) && FromFits(net, from, h) && Fixed(net, t0) && (t0.url == "" || t0.url == from.url)
    requires Bind(net, t0.(url := from.url), h.text, from.port).Some?
    ensures var t := WithDefaults(Bind(net, t0.(url := from.url), h.text, from.port).value, from);
      CanonTarget(net, t).Some? ==>
        var t' := CanonTarget(net, t).value;
        && Bound(t', h, from.port) && t'.url == from.url
        && Bind(net, t'.(url := from.url), h.text, from.port) == Some(t') && WithDefaults(t', from) == t'
  {
    GoodSettles(net, h);
    BindGood(net, t0.(url := from.url), h.text, from.port);
    BindBinds(net, t0.(url := from.url), h.text, from.port);
    var t := WithDefaults(Bind(net, t0.(url := from.url), h.text, from.port).value, from);
    if CanonTarget(net, t).Some? {
      BoundStays(net, t, h, from.port);
      BindBound(net, CanonTarget(net, t).value, h, from.port);
      FixedFields(net, t0);
      assert CanonTarget(net, t).value.url == from.url;
    }
  }

  lemma WebBinds(net: Net, ev: Event, from: Target, h: Host)
    requires Lawful(net) && URLTarget(net, ev.value) == Some(from) && FromFits(net, from, h)
    requires Fixed(net, ev.target) && BindWeb(net, ev).Some? && Retarget(net, BindWeb(net, ev).value).Some?
    ensures var r := Retarget(net, BindWeb(net, ev).value).value;
      BindWeb(net, r) == Some(r) && Bound(r.target, h, from.port) && r.tls == Tls(from.url)
  {
    WebTarget(net, ev.target, from, h);
  }

  // ---------------------------------------------------------------- service values

  lemma CutAt(a: string, b: string)
    requires '/' !in a
    ensures var s := a + ("/" + b); Cut(s) && Before(s) == a && Behind(s) == b
  {
    var s := a + ("/" + b);
    assert s[..|a|] == a && s[|a| + 1..] == b && s[|a|] == '/';
    FirstIs(s, '/', |a|);
  }

  lemma CutJoin(v: string)
    requires Cut(v)
    ensures v == Before(v) + ("/" + Behind(v))
  {
  }

  lemma BeforeHasNoSlash(v: string)
    requires Cut(v)
    ensures '/' !in Before(v)
  {
    var k := FirstIndex(v, '/').value;
    forall c | c in Before(v) ensures c != '/' {
      var i :| 0 <= i < k && v[..k][i] == c;
    }
  }

  lemma SplitSubset(v: string)
    requires SplitHostPort(v).Some?
    ensures forall c :: c in SplitHostPort(v).value.host ==> c in v
  {
    if v[0] == '[' {
      var end := LastIndex(v, ']').value;
      assert SplitHostPort(v).value.host == v[1..end];
    } else {
      var i := LastIndex(v, ':').value;
      assert SplitHostPort(v).value.host == v[..i];
    }
  }

  lemma HostHasNoSlash(v: string)
    requires Cut(v) && SplitHostPort(Before(v)).Some?
    ensures '/' !in SplitHostPort(Before(v)).value.host
  {
    BeforeHasNoSlash(v);
    SplitSubset(Before(v));
  }

  lemma LowerSlash(s: string)
    requires '/' !in s
    ensures '/' !in Lower(s)
  {
    forall i | 0 <= i < |s| ensures Lower(s)[i] != '/' { assert s[i] in s; }
  }

  /** The canonical text of a host: no slash if it had none, no space in front. */
  lemma HostTidy(net: Net, host: string)
    requires Lawful(net) && CanonHost(net, host).Some? && '/' !in host
    ensures var h := CanonHost(net, host).value.text; '/' !in h && (h != "" ==> !IsSpace(h[0]))
  {
    TrimSpaceTrims(host);
    TrimmedHost(host);
    var t := TrimSpace(host);
    if net.parse(t).Some? {
      assert ParsedFits(net, t, net.parse(t).value);
      assert '/' in net.parse(t).value ==> AddrChar('/') || '/' in t;
    } else {
      TrimmedParts(host);
      assert forall c :: c in DropDot(t) ==> c in t;
      LowerSlash(DropDot(t));
    }
  }

  lemma EndpointHasNoSlash(net: Net, h: Host, port: int)
    requires '/' !in h.text && 1 <= port <= 65535
    ensures '/' !in PortText(net, h, port)
  {
    PortDigits(port);
    assert forall c :: c in Itoa(port) ==> IsDigit(c);
  }

  lemma SplitPortText(net: Net, host: string, port: int)
    requires Lawful(net) && 1 <= port <= 65535 && CanonHost(net, host).Some?
    requires CanonHost(net, host).value.text != "" && CanonHost(net, host).value.text[0] != '['
    ensures SplitHostPort(PortText(net, CanonHost(net, host).value, port)) == Some(Endpoint(CanonHost(net, host).value.text, port))
  {
    SplitPortValue(net, host, port);
  }

  lemma EndpointGood(net: Net, host: string, port: int)
    requires Lawful(net) && Settles(net, host) && 1 <= port <= 65535
    ensures PortValue(net, host, port).Some? && GoodEndpoint(net, PortValue(net, host, port).value)
    ensures SplitHostPort(PortValue(net, host, port).value) == Some(Endpoint(CanonHost(net, host).value.text, port))
  {
    SettlesGood(net, host);
    SplitPortText(net, host, port);
  }

  /** A service text, and what its parts are. */
  predicate ServiceFits(net: Net, w: string, h: Host, port: int, service: string) {
    && w != "" && TrimSpace(w) == w && Cut(w) && Behind(w) == service && Before(w) == PortText(net, h, port)
    && SplitHostPort(Before(w)) == Some(Endpoint(h.text, port))
  }

  /** An endpoint, a slash and a service name: trimmed as a whole. */
  lemma ServiceTrimmed(net: Net, h: Host, port: int, service: string)
    requires h.text != "" && !IsSpace(h.text[0]) && service != "" && !IsSpace(service[|service| - 1])
    ensures var w := PortText(net, h, port) + ("/" + service); w != "" && TrimSpace(w) == w
  {
    var w := PortText(net, h, port) + ("/" + service);
    assert w[0] == '[' || w[0] == h.text[0];
    assert w[|w| - 1] == service[|service| - 1];
    TrimSpaceTrims(w);
  }

  lemma ServiceBuilt(net: Net, host: string, port: int, service: string)
    requires Lawful(net) && CanonHost(net, host).Some? && 1 <= port <= 65535 && '/' !in host
    requires CanonHost(net, host).value.text != "" && CanonHost(net, host).value.text[0] != '['
    requires service != "" && !IsSpace(service[|service| - 1])
    ensures var h := CanonHost(net, host).value; ServiceFits(net, PortText(net, h, port) + ("/" + service), h, port, service)
  {
    var h := CanonHost(net, host).value;
    HostTidy(net, host);
    EndpointHasNoSlash(net, h, port);
    ServiceTrimmed(net, h, port, service);
    CutAt(PortText(net, h, port), service);
    SplitPortText(net, host, port);
  }

  /** Rewriting a service value. */
  function ServiceValue(net: Net, v: string): string
    requires Cut(v) && SplitHostPort(Before(v)).Some?
  {
    var e := SplitHostPort(Before(v)).value;
    (if PortValue(net, e.host, e.port).Some? then PortValue(net, e.host, e.port).value else "") + ("/" + Lower(Behind(v)))
  }

  lemma LowerEnd(s: string)
    requires s != "" && !IsSpace(s[|s| - 1])
    ensures Lower(s) != "" && !IsSpace(Lower(s)[|s| - 1])
  {
  }

  lemma ServiceEnd(v: string)
    requires v != "" && Trimmed(v) && Cut(v) && Behind(v) != ""
    ensures !IsSpace(Behind(v)[|Behind(v)| - 1])
  {
    CutJoin(v);
    assert v[|v| - 1] == Behind(v)[|Behind(v)| - 1];
  }

  /** A trimmed service text with a host that can be split off again. */
  predicate ServiceText(net: Net, v: string) {
    && v != "" && Trimmed(v) && Cut(v) && Behind(v) != "" && SplitHostPort(Before(v)).Some?
    && var e := SplitHostPort(Before(v)).value;
       && 1 <= e.port <= 65535 && CanonHost(net, e.host).Some?
       && CanonHost(net, e.host).value.text != "" && CanonHost(net, e.host).value.text[0] != '['
  }

  lemma ServiceShape(net: Net, v: string)
    requires Lawful(net) && ServiceText(net, v)
    ensures var e := SplitHostPort(Before(v)).value;
      ServiceFits(net, ServiceValue(net, v), CanonHost(net, e.host).value, e.port, Lower(Behind(v)))
  {
    HostHasNoSlash(v);
    ServiceEnd(v);
    ServiceFrom(net, v, SplitHostPort(Before(v)).value, Behind(v));
  }

  lemma ServiceFrom(net: Net, v: string, e: Endpoint, service: string)
    requires Lawful(net) && Cut(v) && SplitHostPort(Before(v)) == Some(e) && service == Behind(v)
    requires 1 <= e.port <= 65535 && '/' !in e.host && CanonHost(net, e.host).Some?
    requires CanonHost(net, e.host).value.text != "" && CanonHost(net, e.host).value.text[0] != '['
    requires service != "" && !IsSpace(service[|service| - 1])
    ensures ServiceFits(net, ServiceValue(net, v), CanonHost(net, e.host).value, e.port, Lower(service))
  {
    LowerEnd(service);
    ServiceBuilt(net, e.host, e.port, Lower(service));
    ServiceValueIs(net, v, e, service);
  }

  lemma ServiceValueIs(net: Net, v: string, e: Endpoint, service: string)
    requires Cut(v) && SplitHostPort(Before(v)) == Some(e) && service == Behind(v) && 1 <= e.port <= 65535 && CanonHost(net, e.host).Some?
    ensures ServiceValue(net, v) == PortText(net, CanonHost(net, e.host).value, e.port) + ("/" + Lower(service))
  {
  }

  // ---------------------------------------------------------------- services

  /** A name that losing its dot turns into an IPv4 address. */
  predicate Dotted(net: Net, host: string) {
    net.parse(TrimSpace(host)).None? && Settled(host) && net.parse(CanonFQDN(host)) == Some(CanonFQDN(host)) && !net.six(CanonFQDN(host))
  }

  /** What a service event needs to be its own rebinding: its host settles, or its target has the address
      that its name turns into. */
  predicate GoodService(net: Net, ev: Event) {
    && ServiceText(net, ev.value)
    && var host := SplitHostPort(Before(ev.value)).value.host;
       Settles(net, host) || (Dotted(net, host) && ev.target.host == CanonFQDN(host))
  }

  lemma AgainService(net: Net, ev: Event)
    requires Lawful(net) && ev.kind == KIND_SERVICE && GoodService(net, ev) && Rebound(net, ev).Some?
    ensures var r := Rebound(net, ev).value; BindKind(net, r) == Some(r) && r.value == ServiceValue(net, ev.value)
  {
    KindsDiffer();
    ServiceShape(net, ev.value);
    var e := SplitHostPort(Before(ev.value)).value;
    LowerLower(Behind(ev.value));
    if Settles(net, e.host) {
      AgainSettled(net, ev, e);
    } else {
      AgainDotted(net, ev, e);
    }
    ServiceRebinds(net, Rebound(net, ev).value, CanonHost(net, e.host).value, e.port);
  }

  /** The rebinding of a service, before its target is made canonical. */
  lemma ReboundService(net: Net, ev: Event, e: Endpoint)
    requires ev.kind == KIND_SERVICE && ServiceText(net, ev.value) && SplitHostPort(Before(ev.value)) == Some(e) && Rebound(net, ev).Some?
    ensures Bind(net, ev.target, e.host, e.port).Some?
    ensures var r := Rebound(net, ev).value;
      && CanonTarget(net, Bind(net, ev.target, e.host, e.port).value) == Some(r.target)
      && r.kind == KIND_SERVICE && r.value == ServiceValue(net, ev.value) && r.service == Lower(Behind(ev.value))
  {
    KindsDiffer();
  }

  lemma AgainSettled(net: Net, ev: Event, e: Endpoint)
    requires Lawful(net) && ev.kind == KIND_SERVICE && ServiceText(net, ev.value) && SplitHostPort(Before(ev.value)) == Some(e)
    requires Settles(net, e.host) && Rebound(net, ev).Some?
    ensures var h := CanonHost(net, e.host).value; var t := Rebound(net, ev).value.target;
      Bind(net, t, h.text, e.port) == Some(t) && PortText(net, h, e.port) == PortText(net, CanonHost(net, h.text).value, e.port)
    ensures CanonHost(net, CanonHost(net, e.host).value.text).Some?
  {
    ReboundService(net, ev, e);
    SettlesGood(net, e.host);
    var h := CanonHost(net, e.host).value;
    BindGood(net, ev.target, e.host, e.port);
    BoundStays(net, Bind(net, ev.target, e.host, e.port).value, h, e.port);
    BindBound(net, Rebound(net, ev).value.target, h, e.port);
  }

  lemma DottedHost(net: Net, host: string)
    requires Lawful(net) && Dotted(net, host)
    ensures var r := CanonFQDN(host);
      r != "" && TrimSpace(r) == r && CanonFQDN(r) == r && CanonHost(net, host) == Some(Host(r, false)) && CanonHost(net, r) == Some(Host(r, true))
  {
    var r := CanonFQDN(host);
    TrimmedHost(host);
    SettledTrimmed(host);
    TrimSpaceTrims(r);
    TrimSpaceTrims(host);
    assert TrimSpace(host) == "" ==> r == "";
  }

  lemma AgainDotted(net: Net, ev: Event, e: Endpoint)
    requires Lawful(net) && ev.kind == KIND_SERVICE && ServiceText(net, ev.value) && SplitHostPort(Before(ev.value)) == Some(e)
    requires Dotted(net, e.host) && ev.target.host == CanonFQDN(e.host) && Rebound(net, ev).Some?
    ensures var h := CanonHost(net, e.host).value; var t := Rebound(net, ev).value.target;
      Bind(net, t, h.text, e.port) == Some(t) && PortText(net, h, e.port) == PortText(net, CanonHost(net, h.text).value, e.port)
    ensures CanonHost(net, CanonHost(net, e.host).value.text).Some?
  {
    ReboundService(net, ev, e);
    DottedHost(net, e.host);
    TrimmedHost(e.host);
  }

  lemma ServiceRebinds(net: Net, r: Event, h: Host, port: int)
    requires r.kind == KIND_SERVICE && ServiceFits(net, r.value, h, port, r.service) && r.service != "" && Lower(r.service) == r.service
    requires Bind(net, r.target, h.text, port) == Some(r.target) && 1 <= port <= 65535
    requires CanonHost(net, h.text).Some? && PortText(net, h, port) == PortText(net, CanonHost(net, h.text).value, port)
    ensures BindKind(net, r) == Some(r)
  {
    KindsDiffer();
    assert PortValue(net, h.text, port) == Some(Before(r.value));
    SameService(net, r, h.text, port);
  }

  lemma SameService(net: Net, r: Event, host: string, port: int)
    requires Cut(r.value) && Behind(r.value) == r.service && r.service != "" && Lower(r.service) == r.service
    requires SplitHostPort(Before(r.value)) == Some(Endpoint(host, port)) && PortValue(net, host, port) == Some(Before(r.value))
    requires Bind(net, r.target, host, port) == Some(r.target)
    ensures BindService(net, r) == Some(r)
  {
    CutJoin(r.value);
  }
}
