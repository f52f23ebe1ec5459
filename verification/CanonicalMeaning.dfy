/** What Canonical accepts, fills in and refuses, field by field. */
module CanonicalMeaning {
  import opened Wrappers
  import opened Text
  import opened Decimal
  import opened Events
  import opened Hosts
  import opened Urls
  import opened Canonical
  import opened CanonicalBinding
  import opened CanonicalTheorems

  // ---------------------------------------------------------------- targets

  lemma FieldsIff(t: Target)
    ensures TargetValid(t) <==>
      && (if t.name == "" then t.nameRole == "" else ValidName(CanonFQDN(t.name)))
      && t.nameRole in {"", "requested", "observed", "dns_a", "dns_aaaa", "ptr", "certificate_cn", "certificate_san", "certificate_transparency"}
      && 0 <= t.port <= 65535 && t.proto in {"", "tcp", "udp", "icmp", "icmpv6", "arp"}
      && (t.port == 0 || t.proto in {"", "tcp", "udp"})
  {
    assert RoleOf(t) == t.nameRole || (t.nameRole == "" && RoleOf(t) == "observed");
  }

  /** Target.Canonical accepts exactly these targets. */
  lemma TargetIff(net: Net, t: Target)
    ensures CanonTarget(net, t).Some? <==>
      && (t.host != "" ==> net.parse(TrimSpace(t.host)).Some?)
      && (t.url != "" ==> CanonURL(net, t.url).Some?)
      && (if t.name == "" then t.nameRole == "" else ValidName(CanonFQDN(t.name)))
      && t.nameRole in {"", "requested", "observed", "dns_a", "dns_aaaa", "ptr", "certificate_cn", "certificate_san", "certificate_transparency"}
      && 0 <= t.port <= 65535 && t.proto in {"", "tcp", "udp", "icmp", "icmpv6", "arp"}
      && (t.port == 0 || t.proto in {"", "tcp", "udp"})
  {
    FieldsIff(t);
    AcceptIff(net, t);
  }

  lemma AcceptIff(net: Net, t: Target)
    ensures CanonTarget(net, t).Some? <==>
      (t.host != "" ==> net.parse(TrimSpace(t.host)).Some?) && (t.url != "" ==> CanonURL(net, t.url).Some?) && TargetValid(t)
  {
  }

  /** A name given without a role is only observed, and so binds nothing; everything else keeps its role. */
  lemma RoleMeans(net: Net, t: Target)
    requires CanonTarget(net, t).Some?
    ensures var r := CanonTarget(net, t).value;
      && (t.nameRole != "" || t.name == "" ==> r.nameRole == t.nameRole)
      && (t.nameRole == "" && t.name != "" ==> r.nameRole == "observed" && forall ev: Event :: ev.target == r ==> !BoundName(ev))
  {
    assert |NAME_OBSERVED| == 8 && |NAME_REQUESTED| == 9 && |NAME_DNS_A| == 5 && NAME_OBSERVED[0] != NAME_DNS_AAAA[0];
  }

  /** A value's host and port are refused exactly when the target names another port, another address, or,
      for a host that is no address, another name. */
  lemma BindIff(net: Net, t: Target, host: string, port: int)
    ensures Bind(net, t, host, port).Some? <==>
      && t.port in {0, port}
      && (net.parse(TrimSpace(host)).Some? ==> t.host in {"", net.parse(TrimSpace(host)).value})
      && (net.parse(TrimSpace(host)).None? ==> t.name in {"", CanonFQDN(host)})
    ensures Bind(net, t, host, port).Some? && net.parse(TrimSpace(host)).None? && t.name == "" ==>
      Bind(net, t, host, port).value.nameRole == "requested"
  {
  }

  // ---------------------------------------------------------------- what the event gave

  lemma ServiceKept(net: Net, ev: Event)
    requires Canon(net, ev).Some? && ev.schemaVersion == SCHEMA_VERSION
    ensures var e1 := Retargeted(net, ev);
      e1.service == ev.service && CanonTarget(net, ev.target) == Some(e1.target) && CanonValue(net, ev.kind, ev.value) == Some(e1.value) && e1.kind == ev.kind
  {
    PreparedShape(net, ev);
    RetargetedShape(net, ev);
  }

  /** A service given next to the value is the one in the value, up to case. */
  lemma GivenService(net: Net, ev: Event)
    requires Canon(net, ev).Some? && ev.schemaVersion == SCHEMA_VERSION && ev.kind == KIND_SERVICE
    ensures ev.service == "" || Lower(ev.service) == Canon(net, ev).value.service
  {
    KindsDiffer();
    ServiceKept(net, ev);
    SettleRecord(net, Prepared(net, ev).value);
  }

  lemma AddressBound(net: Net, e1: Event)
    requires e1.kind == KIND_IP && BindKind(net, e1).Some?
    ensures e1.target.host in {"", e1.value}
  {
  }

  lemma AddressValue(net: Net, value: string)
    ensures CanonValue(net, KIND_IP, value) == net.parse(TrimSpace(value))
  {
    assert |KIND_FQDN| == 4 && |KIND_DOMAIN| == 6 && |KIND_IP| == 2;
  }

  /** An address event is at its own address, and at no other. */
  lemma GivenAddressAgrees(net: Net, ev: Event)
    requires Lawful(net) && Canon(net, ev).Some? && ev.schemaVersion == SCHEMA_VERSION && ev.kind == KIND_IP
    ensures net.parse(TrimSpace(ev.value)).Some?
    ensures ev.target.host == "" || net.parse(TrimSpace(ev.target.host)) == net.parse(TrimSpace(ev.value))
  {
    if ev.target.host != "" { CanonIPAgain(net, ev.target.host); }
    ServiceKept(net, ev);
    RetargetedShape(net, ev);
    AddressValue(net, ev.value);
    AddressBound(net, Retargeted(net, ev));
    HostField(net, ev.target);
  }

  lemma HostField(net: Net, t: Target)
    requires CanonTarget(net, t).Some?
    ensures t.host != "" ==> net.parse(TrimSpace(t.host)) == Some(CanonTarget(net, t).value.host)
  {
  }

  lemma UrlField(net: Net, t: Target)
    requires CanonTarget(net, t).Some? && t.url != ""
    ensures CanonURL(net, t.url) == Some(CanonTarget(net, t).value.url)
  {
  }

  lemma UrlBound(net: Net, e1: Event)
    requires BindWeb(net, e1).Some? && e1.target.url != ""
    ensures CanonURL(net, e1.value) == Some(e1.target.url)
  {
  }

  /** A URL given next to the value has the same canonical form. */
  lemma GivenURLAgrees(net: Net, ev: Event)
    requires Canon(net, ev).Some? && ev.schemaVersion == SCHEMA_VERSION && WebKind(ev.kind) && ev.target.url != ""
    ensures CanonURL(net, ev.value).Some? && CanonURL(net, ev.target.url) == CanonURL(net, CanonURL(net, ev.value).value)
  {
    ServiceKept(net, ev);
    WebSteps(net, ev);
    UrlField(net, ev.target);
    CanonURLText(net, ev.target.url);
    UrlBound(net, Retargeted(net, ev));
  }

  lemma PortBound(net: Net, e1: Event)
    requires e1.kind == KIND_PORT && BindKind(net, e1).Some?
    ensures BindKind(net, e1).value.target.proto == if e1.target.proto == "" then "tcp" else e1.target.proto
  {
    KindsDiffer();
    var e := SplitLoose(e1.value);
    BindLeaves(net, e1.target, e.host, e.port);
  }

  /** Without a protocol a port is a TCP port. */
  lemma PortProto(net: Net, ev: Event)
    requires Canon(net, ev).Some? && ev.schemaVersion == SCHEMA_VERSION && ev.kind == KIND_PORT
    ensures Canon(net, ev).value.target.proto == if ev.target.proto == "" then "tcp" else ev.target.proto
  {
    ServiceKept(net, ev);
    RetargetedShape(net, ev);
    PreparedShape(net, ev);
    SettleRecord(net, Prepared(net, ev).value);
    PortBound(net, Retargeted(net, ev));
    PlainFields(net, ev.target);
    PlainFields(net, BindKind(net, Retargeted(net, ev)).value.target);
  }

  predicate Filling(given: Target, from: Target, t: Target) {
    && t.proto == (if given.proto == "" then from.proto else given.proto)
    && t.httpHost == (if given.httpHost == "" then from.httpHost else given.httpHost)
    && t.sni == (if given.sni == "" then from.sni else given.sni)
  }

  lemma BindLeaves(net: Net, t: Target, host: string, port: int)
    requires Bind(net, t, host, port).Some?
    ensures var r := Bind(net, t, host, port).value; r.proto == t.proto && r.httpHost == t.httpHost && r.sni == t.sni
  {
  }

  lemma WebParts(net: Net, e1: Event)
    requires BindWeb(net, e1).Some?
    ensures URLTarget(net, e1.value).Some?
    ensures var from := URLTarget(net, e1.value).value; var t := Bind(net, e1.target.(url := from.url), Authority(from), from.port);
      t.Some? && BindWeb(net, e1).value.target == WithDefaults(t.value, from)
  {
  }

  lemma WebBound(net: Net, e1: Event)
    requires BindWeb(net, e1).Some?
    ensures URLTarget(net, e1.value).Some? && Filling(e1.target, URLTarget(net, e1.value).value, BindWeb(net, e1).value.target)
  {
    WebParts(net, e1);
    var from := URLTarget(net, e1.value).value;
    BindLeaves(net, e1.target.(url := from.url), Authority(from), from.port);
  }

  lemma PlainFields(net: Net, t: Target)
    requires CanonTarget(net, t).Some?
    ensures var r := CanonTarget(net, t).value; r.proto == t.proto && r.httpHost == t.httpHost && r.sni == CanonFQDN(t.sni)
  {
  }

  lemma WebSteps(net: Net, ev: Event)
    requires Canon(net, ev).Some? && ev.schemaVersion == SCHEMA_VERSION && WebKind(ev.kind)
    ensures CanonURL(net, ev.value) == Some(Retargeted(net, ev).value) && BindWeb(net, Retargeted(net, ev)).Some?
    ensures CanonTarget(net, BindWeb(net, Retargeted(net, ev)).value.target) == Some(Canon(net, ev).value.target)
  {
    KindsDiffer();
    WebValue(net, ev.kind, ev.value);
    ServiceKept(net, ev);
    PreparedShape(net, ev);
    SettleRecord(net, Prepared(net, ev).value);
  }

  lemma WebValue(net: Net, kind: string, value: string)
    requires WebKind(kind)
    ensures CanonValue(net, kind, value) == CanonURL(net, value)
  {
    assert |KIND_NETBLOCK| == 8 && |KIND_SERVICE| == 7 && |KIND_FINDING| == 7 && |KIND_PORT| == 4 && |KIND_IP| == 2;
    assert |KIND_URL| == 3 && |KIND_SCREENSHOT| == 10 && |KIND_FQDN| == 4 && |KIND_DOMAIN| == 6;
  }

  /** What a URL says fills in what the event leaves open, and nothing else. */
  lemma WebFills(net: Net, ev: Event)
    requires Canon(net, ev).Some? && ev.schemaVersion == SCHEMA_VERSION && WebKind(ev.kind)
    ensures CanonURL(net, ev.value).Some? && URLTarget(net, CanonURL(net, ev.value).value).Some?
    ensures var t, r := URLTarget(net, CanonURL(net, ev.value).value).value, Canon(net, ev).value.target;
      && r.proto == (if ev.target.proto == "" then t.proto else ev.target.proto)
      && r.httpHost == (if ev.target.httpHost == "" then t.httpHost else ev.target.httpHost)
      && r.sni == CanonFQDN(if CanonFQDN(ev.target.sni) == "" then t.sni else CanonFQDN(ev.target.sni))
  {
    ServiceKept(net, ev);
    WebSteps(net, ev);
    WebBound(net, Retargeted(net, ev));
    PlainFields(net, ev.target);
    PlainFields(net, BindWeb(net, Retargeted(net, ev)).value.target);
  }

  // ---------------------------------------------------------------- values

  lemma Kinds()
    ensures KIND_FQDN == "fqdn" && KIND_DOMAIN == "domain" && KIND_IP == "ip" && KIND_NETBLOCK == "netblock" && KIND_PORT == "port"
    ensures KIND_SERVICE == "service" && KIND_FINDING == "finding" && KIND_URL == "url" && KIND_SCREENSHOT == "screenshot"
    ensures |"fqdn"| == |"port"| == 4 && |"domain"| == 6 && |"ip"| == 2 && |"netblock"| == 8 && |"service"| == |"finding"| == 7
    ensures |"url"| == 3 && |"screenshot"| == 10 && "fqdn" != "port" && "service" != "finding"
  {
    assert "fqdn"[0] == 'f' && "port"[0] == 'p' && "service"[0] == 's' && "finding"[0] == 'f';
  }

  /** The canonical value, kind by kind; there are no other kinds. */
  lemma ValueIs(net: Net, kind: string, value: string)
    ensures kind == "fqdn" || kind == "domain" ==> CanonValue(net, kind, value) == if CanonFQDN(value) == "" then None else Some(CanonFQDN(value))
    ensures kind == "ip" ==> CanonValue(net, kind, value) == net.parse(TrimSpace(value))
    ensures kind == "netblock" ==> CanonValue(net, kind, value) == net.mask(TrimSpace(value))
    ensures kind == "url" || kind == "screenshot" ==> CanonValue(net, kind, value) == CanonURL(net, value)
    ensures kind == "service" || kind == "finding" ==> CanonValue(net, kind, value) == if TrimSpace(value) == "" then None else Some(TrimSpace(value))
    ensures kind == "port" ==>
      CanonValue(net, kind, value) ==
      (if SplitHostPort(value).None? then None else PortValue(net, SplitHostPort(value).value.host, SplitHostPort(value).value.port))
    ensures kind !in {"fqdn", "domain", "ip", "netblock", "port", "url", "screenshot", "service", "finding"} ==> CanonValue(net, kind, value).None?
  {
    Kinds();
  }

  /** Versions 0 to 2 are read, and version 2 is written. */
  lemma VersionIs(net: Net, ev: Event)
    requires Canon(net, ev).Some?
    ensures ev.schemaVersion in {0, 1, 2} && Canon(net, ev).value.schemaVersion == 2
  {
    PreparedShape(net, ev);
    SettleRecord(net, Prepared(net, ev).value);
  }

  /** A port event's metadata repeat its host and port. */
  lemma PortMetaIs(net: Net, ev: Event)
    requires Canon(net, ev).Some? && ev.kind == KIND_PORT
    ensures SplitHostPort(ev.value).Some?
    ensures var e, r := SplitHostPort(ev.value).value, Canon(net, ev).value;
      && "port" in r.meta && r.meta["port"] == Itoa(e.port)
      && "host" in r.meta && r.meta["host"] == (if net.parse(TrimSpace(e.host)).Some? then net.parse(TrimSpace(e.host)).value else CanonFQDN(TrimSpace(e.host)))
  {
    ValueIs(net, ev.kind, ev.value);
    Kinds();
    PreparedShape(net, ev);
    SettleRecord(net, Prepared(net, ev).value);
  }

  // ---------------------------------------------------------------- metadata

  const GATES_AND_TARGETS := {"allow", "deny", "scope", "profile", "alive", "host", "port", "ip", "ips", "fqdns"}

  /** Everything in the metadata that controls nothing is evidence, too; evidence that was given stays. */
  lemma InfoMeans(net: Net, ev: Event, key: string)
    requires Canon(net, ev).Some?
    ensures var r := Canon(net, ev).value;
      && (key in r.info <==> key in ev.info || (key in ev.meta && key !in GATES_AND_TARGETS))
      && (key in ev.info ==> key in r.info && r.info[key] == ev.info[key])
      && (key in r.info && key !in ev.info ==> r.info[key] == ev.meta[key])
  {
    PreparedShape(net, ev);
    SettleRecord(net, Prepared(net, ev).value);
  }

  // ---------------------------------------------------------------- events of earlier versions

  /** An event of an earlier version is the current event whose target, service and TLS flag are read from
      its metadata where it gives none. */
  function AsCurrent(net: Net, ev: Event, port: int): Event {
    var meta := PortMeta(net, ev);
    var ip, host := net.parse(TrimSpace(Lookup(meta, "ip"))), net.parse(TrimSpace(Lookup(meta, "host")));
    ev.(schemaVersion := 2,
        target := ev.target.(
          host := if ev.target.host != "" then ev.target.host else if ip.Some? then ip.value else if host.Some? then host.value else "",
          port := port,
          proto := if ev.target.proto != "" then ev.target.proto else Lookup(meta, "proto")),
        service := if ev.service == "" && (ev.kind == "service" || ev.kind == "url" || ev.kind == "screenshot") then Lookup(meta, "name") else ev.service,
        tls := ev.tls || Lookup(meta, "tunnel") == "ssl")
  }

  lemma LegacyMeans(net: Net, ev: Event)
    requires ev.schemaVersion == 0 || ev.schemaVersion == 1
    ensures var written := Lookup(PortMeta(net, ev), "port");
      if ev.target.port != 0 || written == "" then Canon(net, ev) == Canon(net, AsCurrent(net, ev, ev.target.port))
      else if Atoi(written).None? then Canon(net, ev).None?
      else Canon(net, ev) == Canon(net, AsCurrent(net, ev, Atoi(written).value))
  {
    var written := Lookup(PortMeta(net, ev), "port");
    if ev.target.port != 0 || written == "" {
      LegacySettles(net, ev, ev.target.port);
    } else if Atoi(written).Some? {
      LegacySettles(net, ev, Atoi(written).value);
    }
  }

  /** What the metadata say, told as the current event. */
  lemma Promoted(net: Net, ev: Event, port: int, e: Event)
    requires (ev.schemaVersion == 0 || ev.schemaVersion == 1) && e == ev.(value := e.value, meta := PortMeta(net, ev), info := e.info)
    requires var written := Lookup(e.meta, "port"); if ev.target.port != 0 || written == "" then port == ev.target.port else Atoi(written) == Some(port)
    ensures Promote(net, e).Some? && Promote(net, e).value.(schemaVersion := 2) == AsCurrent(net, ev, port).(value := e.value, meta := e.meta, info := e.info)
  {
  }

  lemma LegacySettles(net: Net, ev: Event, port: int)
    requires ev.schemaVersion == 0 || ev.schemaVersion == 1
    requires var written := Lookup(PortMeta(net, ev), "port");
      if ev.target.port != 0 || written == "" then port == ev.target.port else Atoi(written) == Some(port)
    ensures Canon(net, ev) == Canon(net, AsCurrent(net, ev, port))
  {
    var value := CanonValue(net, ev.kind, ev.value);
    var now := AsCurrent(net, ev, port);
    assert PortMeta(net, now) == PortMeta(net, ev);
    if value.Some? {
      var meta := PortMeta(net, ev);
      var e := ev.(value := value.value, meta := meta, info := WithInfo(meta, ev.info));
      Promoted(net, ev, port, e);
      VersionIsSet(net, Promote(net, e).value, now.(value := e.value, meta := meta, info := e.info));
    }
  }

  /** The version plays no part in binding. */
  lemma BindVersion(net: Net, e: Event, f: Event)
    requires f == e.(schemaVersion := 2)
    ensures BindKind(net, f).Some? <==> BindKind(net, e).Some?
    ensures BindKind(net, e).Some? ==> BindKind(net, f).value == BindKind(net, e).value.(schemaVersion := 2)
  {
    KindsDiffer();
    if e.kind == KIND_PORT {
      PortVersion(net, e, f);
    } else if e.kind == KIND_SERVICE {
      ServiceVersion(net, e, f);
    } else if WebKind(e.kind) {
      WebVersion(net, e, f);
    }
  }

  lemma PortVersion(net: Net, e: Event, f: Event)
    requires f == e.(schemaVersion := 2)
    ensures BindPort(net, f) == if BindPort(net, e).Some? then Some(BindPort(net, e).value.(schemaVersion := 2)) else None
  {
  }

  lemma ServiceVersion(net: Net, e: Event, f: Event)
    requires f == e.(schemaVersion := 2)
    ensures BindService(net, f) == if BindService(net, e).Some? then Some(BindService(net, e).value.(schemaVersion := 2)) else None
  {
  }

  lemma WebVersion(net: Net, e: Event, f: Event)
    requires f == e.(schemaVersion := 2)
    ensures BindWeb(net, f) == if BindWeb(net, e).Some? then Some(BindWeb(net, e).value.(schemaVersion := 2)) else None
  {
  }

  lemma VersionIsSet(net: Net, e: Event, f: Event)
    requires f == e.(schemaVersion := 2)
    ensures Settle(net, e) == Settle(net, f)
  {
    if Retarget(net, e).Some? { BindVersion(net, Retarget(net, e).value, Retarget(net, f).value); }
  }
}
