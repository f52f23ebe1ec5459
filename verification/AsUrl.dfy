/** A web service as a URL task (internal/asurl/asurl.go). */
module AsUrl {
  import opened Wrappers
  import opened Text
  import opened Decimal
  import opened Events
  import opened Rules
  import opened Hosts
  import opened Urls
  import opened Canonical
  import opened CanonicalBinding
  import opened CanonicalTheorems

  const WEB := ["http", "https", "http-proxy", "https-alt", "http-alt", "ssl/http", "ssl/https"]

  predicate IsWeb(name: string) {
    Lower(TrimSpace(name)) in WEB
  }

  function InputRule(): Rule {
    All([FieldIn("service", WEB), FieldIn("proto", ["", TCP]),
         Any([Has("host"), All([Has("name"), FieldIn("name_role", [NAME_REQUESTED])])])])
  }

  predicate HasPrefix(s: string, prefix: string) {
    prefix <= s
  }

  predicate PartAt(s: string, part: string, i: nat) {
    i + |part| <= |s| && s[i..i + |part|] == part
  }

  predicate Contains(s: string, part: string) {
    exists i :: 0 <= i <= |s| && PartAt(s, part, i)
  }

  /** The service name, or the legacy one. */
  function ServiceName(ev: Event): string {
    if ev.service == "" then Lower(Lookup(ev.meta, "name")) else Lower(ev.service)
  }

  function HostOf(ev: Event): string {
    if Authority(ev.target) == "" then Lookup(ev.meta, "host") else Authority(ev.target)
  }

  function PortOf(ev: Event): int {
    if ev.target.port == 0 then AtoiLoose(Lookup(ev.meta, "port")) else ev.target.port
  }

  function SchemeFor(ev: Event): Scheme {
    if ev.tls || Lookup(ev.meta, "tunnel") == "ssl" || HasPrefix(ServiceName(ev), "ssl/") || Contains(ServiceName(ev), "https")
    then Https else Http
  }

  function HostText6(net: Net, host: string): string {
    if IsSix(net, host) then Bracketed(host) else host
  }

  /** The port is left out where the scheme implies it. */
  function PortSuffix(scheme: Scheme, port: int): string {
    if port != 0 && port != DefaultPort(scheme) then ":" + Itoa(port) else ""
  }

  function UrlOf(net: Net, ev: Event): Option<string> {
    if !IsWeb(ServiceName(ev)) || (ev.target.proto != "" && ev.target.proto != TCP) || HostOf(ev) == "" then None
    else Some(Print(SchemeFor(ev), HostText6(net, HostOf(ev)) + PortSuffix(SchemeFor(ev), PortOf(ev)), ""))
  }

  const KEPT_META := ["host", "port", "fqdns", "ips", "netblock", "name", "product", "version"]

  function KeptAt(meta: map<string, string>, k: string): string
    requires k in KEPT_META
  {
    Lookup(meta, k)
  }

  function KeptMeta(meta: map<string, string>): map<string, string> {
    map k | k in KEPT_META :: KeptAt(meta, k)
  }

  function EventOf(net: Net, trigger: Event): Option<Event> {
    var u := UrlOf(net, trigger);
    if u.None? then None
    else
      var t := URLTarget(net, u.value);
      if t.None? then None
      else
        var target := if trigger.target.host == "" then t.value else t.value.(host := trigger.target.host);
        Some(Event(SCHEMA_VERSION, "", "", "", KIND_URL, u.value, "", "", target, None, "http-service-url",
                   if trigger.service == "" then Lookup(trigger.meta, "name") else trigger.service,
                   SchemeFor(trigger) == Https, trigger.info, KeptMeta(trigger.meta)))
  }

  // ---------------------------------------------------------------- which services, which scheme

  /** The service's name, as the event gives it or as its metadata does. */
  function Named(ev: Event): string {
    Lower(if ev.service != "" then ev.service else if "name" in ev.meta then ev.meta["name"] else "")
  }

  predicate HttpsFrom(name: string, i: int) {
    0 <= i && i + 5 <= |name| && name[i..i + 5] == "https"
  }

  /** The event says in one of four ways that the service speaks TLS. */
  ghost predicate Secure(ev: Event) {
    || ev.tls || ("tunnel" in ev.meta && ev.meta["tunnel"] == "ssl") || "ssl/" <= Named(ev)
    || exists i :: HttpsFrom(Named(ev), i)
  }

  lemma SecureIff(ev: Event)
    ensures SchemeFor(ev) == Https <==> Secure(ev)
  {
    var name := Named(ev);
    assert name == ServiceName(ev) && |"https"| == 5;
    if Contains(name, "https") {
      var i :| 0 <= i <= |name| && PartAt(name, "https", i);
      assert HttpsFrom(name, i);
    }
    if exists i :: HttpsFrom(name, i) {
      var i :| HttpsFrom(name, i);
      assert PartAt(name, "https", i);
    }
  }

  /** Which services have a URL: those with an HTTP name, over TCP if the protocol is given, with a host. */
  lemma UrlIff(net: Net, ev: Event)
    ensures UrlOf(net, ev).Some? <==>
      && Lower(TrimSpace(Named(ev))) in {"http", "https", "http-proxy", "https-alt", "http-alt", "ssl/http", "ssl/https"}
      && ev.target.proto in {"", "tcp"}
      && (ev.target.host != "" || (ev.target.name != "" && ev.target.nameRole == "requested") || ("host" in ev.meta && ev.meta["host"] != ""))
    ensures UrlOf(net, ev).Some? ==> ("https://" <= UrlOf(net, ev).value <==> Secure(ev))
  {
    SecureIff(ev);
    if UrlOf(net, ev).Some? {
      TlsPrint(SchemeFor(ev), HostText6(net, HostOf(ev)) + PortSuffix(SchemeFor(ev), PortOf(ev)), "");
    }
  }

  /** What the task takes over from the service besides its endpoint. */
  lemma TaskMeans(net: Net, trigger: Event)
    requires EventOf(net, trigger).Some?
    ensures var r := EventOf(net, trigger).value;
      && r.kind == "url" && UrlOf(net, trigger) == Some(r.value) && r.schemaVersion == SCHEMA_VERSION
      && (r.tls <==> Secure(trigger)) && r.info == trigger.info
      && r.service == (if trigger.service != "" then trigger.service else Lookup(trigger.meta, "name"))
      && (forall k :: k in r.meta <==> k in {"host", "port", "fqdns", "ips", "netblock", "name", "product", "version"})
      && (forall k :: k in r.meta ==> r.meta[k] == Lookup(trigger.meta, k))
  {
    SecureIff(trigger);
  }

  // ---------------------------------------------------------------- the endpoint survives

  /** A canonical web service: TCP, a port, and an address or a requested DNS name. */
  predicate Probed(net: Net, ev: Event) {
    var t := ev.target;
    && IsWeb(ServiceName(ev)) && (t.proto == "" || t.proto == TCP) && 1 <= t.port <= 65535
    && (t.host != "" ==> net.parse(t.host) == Some(t.host))
    && (t.name != "" ==> ValidName(t.name))
    && (t.host != "" || (t.name != "" && t.nameRole == NAME_REQUESTED))
  }

  function PortText(scheme: Scheme, port: int): string {
    if port != DefaultPort(scheme) then Itoa(port) else ""
  }

  /** A host that URLs can name, in canonical form. */
  predicate UrlHost(net: Net, h: string) {
    WebHost(net, h) && h != "" && CanonHost(net, h).Some? && CanonHost(net, h).value.text == h
  }

  lemma AuthoritySame(net: Net, h: string, scheme: Scheme, port: int)
    requires Lawful(net) && 1 <= port <= 65535 && UrlHost(net, h)
    ensures AuthorityText(net, h, PortText(scheme, port)) == HostText6(net, h) + PortSuffix(scheme, port)
  {
    ItoaNonempty(port);
    assert HostText6(net, h) + "" == HostText6(net, h);
    if IsSix(net, h) { assert ParsedFits(net, h, net.parse(h).value); }
    assert '%' !in h by { assert forall i :: 0 <= i < |h| ==> HostChar(h[i]); }
  }

  /** The text UrlOf prints is a canonical URL of that host and port. */
  lemma UrlReads(net: Net, scheme: Scheme, h: string, port: int)
    requires Lawful(net) && 1 <= port <= 65535 && UrlHost(net, h)
    ensures var u := Print(scheme, HostText6(net, h) + PortSuffix(scheme, port), "");
      CanonURL(net, u) == Some(u) && Reads(net, u, scheme, h, PortText(scheme, port), "")
  {
    var p := PortText(scheme, port);
    PortDigits(port);
    ItoaNonempty(port);
    PrintReads(net, scheme, h, p, "");
    AuthoritySame(net, h, scheme, port);
    CanonOfRead(net, Print(scheme, AuthorityText(net, h, p), ""), scheme, h, p, "");
  }

  lemma PortBack(scheme: Scheme, port: int)
    requires 1 <= port <= 65535
    ensures (if PortText(scheme, port) == "" then DefaultPort(scheme) else (if Atoi(PortText(scheme, port)).Some? then Atoi(PortText(scheme, port)).value else 0)) == port
  {
    AtoiItoa(port);
    ItoaNonempty(port);
  }

  /** The target of the printed URL. */
  lemma PrintedTarget(net: Net, scheme: Scheme, h: string, port: int)
    requires Lawful(net) && 1 <= port <= 65535 && UrlHost(net, h)
    ensures var u := Print(scheme, HostText6(net, h) + PortSuffix(scheme, port), ""); var t := URLTarget(net, u);
      && t.Some? && t.value.url == u && t.value.proto == TCP && t.value.port == port
      && (if net.parse(h).Some? then t.value.host == h && t.value.name == "" && t.value.nameRole == ""
          else t.value.host == "" && t.value.name == h && t.value.nameRole == NAME_REQUESTED)
  {
    UrlReads(net, scheme, h, port);
    URLTargetNames(net, Print(scheme, HostText6(net, h) + PortSuffix(scheme, port), ""));
    PortBack(scheme, port);
    TextTrimmed(h);
  }

  /** The host the URL is printed with. */
  lemma AuthorityHost(net: Net, ev: Event)
    requires Lawful(net) && Probed(net, ev)
    ensures HostOf(ev) == Authority(ev.target) && HostOf(ev) != ""
    ensures if '%' in HostOf(ev) then net.parse(HostOf(ev)) == Some(HostOf(ev)) else UrlHost(net, HostOf(ev))
  {
    var t := Authority(ev.target);
    if t == ev.target.name && t != "" {
      NameHost(net, t);
    } else if '%' !in t {
      AddrText(net, t);
      TextTrimmed(t);
    }
  }

  lemma NameHost(net: Net, t: string)
    requires Lawful(net) && ValidName(t)
    ensures UrlHost(net, t) && '%' !in t
  {
    ValidNameCanonical(t);
    forall i | 0 <= i < |t| ensures HostChar(t[i]) && t[i] != ':' && t[i] != '[' && t[i] != '%' { assert LabelChar(t[i]) || t[i] == '.'; }
    if net.parse(t).Some? { assert ParsedFits(net, t, net.parse(t).value); }
  }

  /** What the URL task inherits from the service: where to connect and which name to ask for. */
  predicate SameEndpoint(net: Net, trigger: Event, out: Event) {
    var t := out.target;
    && t.proto == TCP && t.port == trigger.target.port
    && t.host == (if trigger.target.host != "" then trigger.target.host
                  else if net.parse(trigger.target.name).Some? then trigger.target.name else "")
    && out.tls == (SchemeFor(trigger) == Https) && Tls(out.value) == out.tls && t.url == out.value
    && t.name == (if net.parse(Authority(trigger.target)).Some? then "" else Authority(trigger.target))
  }

  lemma PrintedEvent(net: Net, trigger: Event)
    requires Lawful(net) && Probed(net, trigger)
    ensures UrlOf(net, trigger) == Some(Print(SchemeFor(trigger), HostText6(net, HostOf(trigger)) + PortSuffix(SchemeFor(trigger), trigger.target.port), ""))
  {
    AuthorityHost(net, trigger);
  }

  // ---------------------------------------------------------------- zones

  lemma ZoneStart(net: Net, h: string) returns (z: nat)
    requires Lawful(net) && net.parse(h) == Some(h) && '%' in h
    ensures z < |h| && h[z] == '%' && forall i :: 0 <= i < z ==> AddrChar(h[i])
    ensures net.six(h)
  {
    z := FirstIndex(h, '%').value;
    assert ParsedFits(net, h, h);
    forall i | 0 <= i < z ensures AddrChar(h[i]) {
      var front := h[..i + 1];
      forall k | 0 <= k < |front| ensures front[k] != '%' { assert front[k] == h[k]; }
    }
  }

  /** An authority with a percent sign in front of every slash is not read. */
  lemma PercentRefused(net: Net, scheme: Scheme, a: string, z: nat)
    requires z < |a| && a[z] == '%' && forall i :: 0 <= i < z ==> !EndsAuthority(a[i])
    ensures ParseAfter(net, scheme, a).None?
  {
    var n := AuthorityLength(a);
    assert a[..n][z] == '%';
  }

  lemma ZonedText(net: Net, h: string, suffix: string, z: nat)
    requires z < |h| && h[z] == '%' && (forall i :: 0 <= i < z ==> AddrChar(h[i]))
    ensures var a := Bracketed(h) + suffix; z + 1 < |a| && a[z + 1] == '%' && forall i :: 0 <= i < z + 1 ==> !EndsAuthority(a[i])
  {
    var a := Bracketed(h) + suffix;
    forall i | 0 <= i < z + 1 ensures !EndsAuthority(a[i]) {
      if i > 0 { assert a[i] == h[i - 1]; }
    }
  }

  /** An address with a zone has no URL. */
  lemma ZonedRefused(net: Net, scheme: Scheme, h: string, port: int)
    requires Lawful(net) && net.parse(h) == Some(h) && '%' in h && 1 <= port <= 65535
    ensures URLTarget(net, Print(scheme, HostText6(net, h) + PortSuffix(scheme, port), "")).None?
  {
    var z := ZoneStart(net, h);
    var suffix := PortSuffix(scheme, port);
    var a := Bracketed(h) + suffix;
    ZonedText(net, h, suffix, z);
    PercentRefused(net, scheme, a, z + 1);
    ItoaNonempty(port);
    ZonedPrint(net, scheme, a, ParseAfter(net, scheme, a));
  }

  lemma ZonedPrint(net: Net, scheme: Scheme, a: string, read: Option<Url>)
    requires a != "" && !IsSpace(a[|a| - 1]) && ParseAfter(net, scheme, a) == read
    ensures Parse(net, TrimSpace(Print(scheme, a, ""))) == read
  {
    var tail := "//" + a;
    assert a + "" == a && tail[2..] == a && HasAuthority(tail);
    PrintedAlone(scheme, a);
    SchemeTrimmed(scheme, tail);
    ParseSplit(net, scheme, tail);
  }

  lemma PrintedAlone(scheme: Scheme, a: string)
    requires a != ""
    ensures Print(scheme, a, "") == SchemeText(scheme) + (":" + ("//" + a))
  {
    assert a + "" == a;
  }

  lemma SchemeTrimmed(scheme: Scheme, tail: string)
    requires tail != "" && !IsSpace(tail[|tail| - 1])
    ensures var s := SchemeText(scheme) + (":" + tail); TrimSpace(s) == s
  {
    var s := SchemeText(scheme) + (":" + tail);
    assert s[0] == SchemeText(scheme)[0] == 'h' && s[|s| - 1] == tail[|tail| - 1];
    TrimSpaceTrims(s);
  }

  // ---------------------------------------------------------------- the theorems

  /** A canonical web service becomes a URL task exactly when the host it is named by has no zone. */
  lemma EventIff(net: Net, trigger: Event)
    requires Lawful(net) && Probed(net, trigger)
    ensures EventOf(net, trigger).Some? <==> '%' !in Authority(trigger.target)
  {
    AuthorityHost(net, trigger);
    PrintedEvent(net, trigger);
    if '%' in Authority(trigger.target) {
      ZonedRefused(net, SchemeFor(trigger), HostOf(trigger), trigger.target.port);
    } else {
      PrintedTarget(net, SchemeFor(trigger), HostOf(trigger), trigger.target.port);
    }
  }

  /** The URL event keeps the service's host, requested name, port and TLS through the printed URL and
      back. */
  lemma EventKeepsEndpoint(net: Net, trigger: Event)
    requires Lawful(net) && Probed(net, trigger) && EventOf(net, trigger).Some?
    ensures SameEndpoint(net, trigger, EventOf(net, trigger).value)
  {
    EventIff(net, trigger);
    AuthorityHost(net, trigger);
    PrintedEvent(net, trigger);
    PrintedTarget(net, SchemeFor(trigger), HostOf(trigger), trigger.target.port);
    TlsPrint(SchemeFor(trigger), HostText6(net, HostOf(trigger)) + PortSuffix(SchemeFor(trigger), trigger.target.port), "");
  }

  /** A requested name always leads to a URL task, beside an address with a zone too; it survives exactly
      when it is not itself the text of an address. */
  lemma RequestedNameKept(net: Net, trigger: Event)
    requires Lawful(net) && Probed(net, trigger) && trigger.target.name != "" && trigger.target.nameRole == NAME_REQUESTED
    ensures EventOf(net, trigger).Some?
    ensures EventOf(net, trigger).value.target.name == trigger.target.name <==> net.parse(trigger.target.name).None?
    ensures EventOf(net, trigger).value.target.name == trigger.target.name ==>
      EventOf(net, trigger).value.target.nameRole == NAME_REQUESTED
  {
    NameHost(net, trigger.target.name);
    EventIff(net, trigger);
    EventKeepsEndpoint(net, trigger);
    AuthorityHost(net, trigger);
    PrintedEvent(net, trigger);
    PrintedTarget(net, SchemeFor(trigger), HostOf(trigger), trigger.target.port);
  }

  // ---------------------------------------------------------------- a service without a URL task

  /** A web service at an address with a zone, such as fe80::1%eth0. */
  function ZonedService(host: string): Event {
    Event(SCHEMA_VERSION, "1", "1", "", KIND_SERVICE, Bracketed(host) + (":" + Itoa(8080)) + ("/" + "http"), "", "",
          NO_TARGET.(host := host, port := 8080, proto := TCP), None, "", "http", false, map[], map[])
  }

  lemma ZonedMatches(host: string)
    requires host != ""
    ensures Match(InputRule(), ZonedService(host))
  {
    var ev, r := ZonedService(host), InputRule();
    var web, proto, has := r.all.rules[0], r.all.rules[1], r.all.rules[2];
    assert WEB[0] == "http";
    assert Match(web, ev) && Match(proto, ev);
    assert Match(has.any.rules[0], ev);
    assert Match(has, ev);
  }

  lemma ZonedProbed(net: Net, host: string)
    requires net.parse(host) == Some(host) && host != ""
    ensures Probed(net, ZonedService(host)) && Authority(ZonedService(host).target) == host
  {
    assert WEB[0] == "http";
    WebNames("http");
  }

  /** The worker is eligible and has a URL to print, and yet publishes nothing. */
  lemma ZonedServiceHasNoTask(net: Net, host: string)
    requires Lawful(net) && net.parse(host) == Some(host) && '%' in host
    ensures Match(InputRule(), ZonedService(host)) && UrlOf(net, ZonedService(host)).Some? && EventOf(net, ZonedService(host)).None?
  {
    ZonedMatches(host);
    ZonedProbed(net, host);
    EventIff(net, ZonedService(host));
    EligibleHasURL(net, ZonedService(host));
  }

  lemma ZonedFits(net: Net, host: string)
    requires Lawful(net) && net.parse(host) == Some(host) && '%' in host && Trimmed(host) && '/' !in host
    ensures ServiceFits(net, ZonedService(host).value, Host(host, true), 8080, "http")
  {
    TrimSpaceTrims(host);
    assert ParsedFits(net, host, host);
    assert CanonHost(net, host) == Some(Host(host, true));
    ServiceBuilt(net, host, 8080, "http");
  }

  lemma ZonedFixed(net: Net, host: string)
    requires Lawful(net) && net.parse(host) == Some(host) && '%' in host && Trimmed(host) && '/' !in host
    ensures Canon(net, ZonedService(host)) == Some(ZonedService(host))
  {
    var ev := ZonedService(host);
    ZonedFits(net, host);
    KindsDiffer();
    TrimSpaceTrims(host);
    TrimSpaceTrims("");
    WebNames(WEB[0]);
    TrimmedAgain(net, ev.kind, ev.value);
    FixedFields(net, ev.target);
    SameService(net, ev, host, 8080);
    CanonFixed(net, ev);
  }

  lemma ZonedTrimmed(host: string)
    ensures TrimSpace(ZonedService(host).value) == ZonedService(host).value
  {
    var v := ZonedService(host).value;
    assert v[0] == '[' && v[|v| - 1] == 'p';
    TrimSpaceTrims(v);
  }

  /** The first slash is in front of the last one. */
  lemma EarlySlash(v: string, i: nat)
    requires i + 5 < |v| && v[i] == '/'
    ensures Cut(v) && |Behind(v)| > 4
  {
  }

  lemma ZonedSlash(host: string)
    requires '/' in host
    ensures var v := ZonedService(host).value; TrimSpace(v) == v && Cut(v) && |Behind(v)| > 4
  {
    ZonedTrimmed(host);
    var i :| 0 <= i < |host| && host[i] == '/';
    var v := ZonedService(host).value;
    assert v[i + 1] == '/' && |v| >= |host| + 7;
    EarlySlash(v, i + 1);
  }

  /** It is what readers see: such a service is in canonical form, unless its zone has a slash in it or ends
      in a space. */
  lemma ZonedCanonicalIff(net: Net, host: string)
    requires Lawful(net) && net.parse(host) == Some(host) && '%' in host
    ensures Canon(net, ZonedService(host)) == Some(ZonedService(host)) <==> Trimmed(host) && '/' !in host
  {
    var ev := ZonedService(host);
    if Trimmed(host) && '/' !in host { ZonedFixed(net, host); }
    if Canon(net, ev) == Some(ev) {
      ServiceResult(net, ev);
      var t := Bind(net, Retargeted(net, ev).target, ServiceEndpoint(ev).value.host, ServiceEndpoint(ev).value.port).value;
      TrimSpaceTrims(t.host);
      assert host != "" && ParsedFits(net, TrimSpace(t.host), host);
      if '/' in host { ZonedSlash(host); }
    }
  }

  // ---------------------------------------------------------------- every eligible service becomes a URL

  lemma WebNames(name: string)
    requires name in WEB
    ensures name != "" && Lower(name) == name && IsWeb(name) && IsWeb(Lower(name))
  {
    forall i | 0 <= i < |name| ensures LowerChar(name[i]) == name[i] {}
    assert Lower(name) == name;
    assert Trimmed(name);
    TrimSpaceTrims(name);
  }

  /** The reading of the fields the rule asks for. */
  lemma InputFields(ev: Event)
    requires Match(InputRule(), ev)
    ensures ev.service in WEB && (ev.target.proto == "" || ev.target.proto == TCP)
    ensures ev.target.host != "" || (ev.target.name != "" && ev.target.nameRole == NAME_REQUESTED)
  {
    var r := InputRule();
    var web, proto, host := r.all.rules[0], r.all.rules[1], r.all.rules[2];
    assert Match(web, ev) && Match(proto, ev) && Match(host, ev);
    if !Match(host.any.rules[0], ev) {
      var named := host.any.rules[1];
      assert Match(named, ev);
      assert Match(named.all.rules[0], ev) && Match(named.all.rules[1], ev);
    }
  }

  /** The worker's input rule lets through only services that URL can print. */
  lemma EligibleHasURL(net: Net, ev: Event)
    requires Match(InputRule(), ev)
    ensures UrlOf(net, ev).Some?
  {
    InputFields(ev);
    WebNames(ev.service);
    HasURL(net, ev);
  }

  lemma HasURL(net: Net, ev: Event)
    requires IsWeb(ServiceName(ev)) && (ev.target.proto == "" || ev.target.proto == TCP) && HostOf(ev) != ""
    ensures UrlOf(net, ev).Some?
  {
  }

  /** Every service event in canonical form that the rule lets through is a canonical web service in this
      sense. */
  lemma CanonicalProbed(net: Net, ev: Event)
    requires Lawful(net) && ev.kind == KIND_SERVICE && Canon(net, ev).Some? && Match(InputRule(), Canon(net, ev).value)
    ensures Probed(net, Canon(net, ev).value)
  {
    var r := Canon(net, ev).value;
    InputFields(r);
    WebNames(r.service);
    ServiceResult(net, ev);
    var e := ServiceEndpoint(ev).value;
    BoundTwice(net, Retargeted(net, ev).target, e.host, e.port);
    CanonicalTarget(net, Bind(net, Retargeted(net, ev).target, e.host, e.port).value);
  }

  lemma CanonicalTarget(net: Net, t: Target)
    requires Lawful(net) && CanonTarget(net, t).Some?
    ensures var t' := CanonTarget(net, t).value;
      (t'.host != "" ==> net.parse(t'.host) == Some(t'.host)) && (t'.name != "" ==> ValidName(t'.name))
  {
    if t.host != "" { assert ParsedFits(net, TrimSpace(t.host), net.parse(TrimSpace(t.host)).value); }
  }
}
