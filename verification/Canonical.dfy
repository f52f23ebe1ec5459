/** The canonical form of an event: Target.Canonical, bindAuthority, normalize and Canonical
    (event/event.go:134-186, event/target.go:97-196 and 266-374). */
module Canonical {
  import opened Wrappers
  import opened Text
  import opened Decimal
  import opened Events
  import opened Hosts
  import opened Urls

  const ROLES := {"", NAME_REQUESTED, NAME_OBSERVED, NAME_DNS_A, NAME_DNS_AAAA, "ptr", "certificate_cn", "certificate_san", "certificate_transparency"}
  const PROTOS := {"", TCP, UDP, "icmp", "icmpv6", "arp"}

  // ---------------------------------------------------------------- targets

  function CanonOptional(s: string, canon: string -> Option<string>): Option<string> {
    if s == "" then Some("") else canon(s)
  }

  function CanonName(name: string): string {
    if name == "" then "" else CanonFQDN(name)
  }

  function RoleOf(t: Target): string {
    if t.name != "" && t.nameRole == "" then NAME_OBSERVED else t.nameRole
  }

  /** The fields that are checked but not rewritten. */
  predicate TargetValid(t: Target) {
    && (if t.name == "" then t.nameRole == "" else ValidName(CanonFQDN(t.name)))
    && RoleOf(t) in ROLES
    && 0 <= t.port <= 65535
    && t.proto in PROTOS
    && (t.port != 0 && t.proto != "" ==> t.proto == TCP || t.proto == UDP)
  }

  function CanonTarget(net: Net, t: Target): Option<Target> {
    var host := CanonOptional(t.host, s => CanonIP(net, s));
    var url := CanonOptional(t.url, s => CanonURL(net, s));
    if host.None? || url.None? || !TargetValid(t) then None
    else Some(t.(host := host.value, name := CanonName(t.name), nameRole := RoleOf(t), url := url.value, sni := CanonFQDN(t.sni)))
  }

  /** The value names the target's port, and its host or name: fill in what is missing, refuse what
      disagrees. */
  function Bind(net: Net, t: Target, host: string, port: int): Option<Target> {
    if t.port != 0 && t.port != port then None
    else
      var ip := CanonIP(net, host);
      if ip.Some? then
        if t.host != "" && t.host != ip.value then None else Some(t.(port := port, host := ip.value))
      else
        var name := CanonFQDN(host);
        if t.name != "" && t.name != name then None
        else if t.name == "" then Some(t.(port := port, name := name, nameRole := NAME_REQUESTED))
        else Some(t.(port := port))
  }

  function Authority(t: Target): string {
    if t.name != "" && t.nameRole == NAME_REQUESTED then t.name else t.host
  }

  // ---------------------------------------------------------------- values

  predicate Cut(s: string) {
    '/' in s
  }

  /** strings.Cut at the first slash. */
  function Before(s: string): string
    requires Cut(s)
  {
    s[..FirstIndex(s, '/').value]
  }

  function Behind(s: string): string
    requires Cut(s)
  {
    s[FirstIndex(s, '/').value + 1..]
  }

  predicate WebKind(kind: string) {
    kind == KIND_URL || kind == KIND_SCREENSHOT
  }

  predicate NameKind(kind: string) {
    kind == KIND_FQDN || kind == KIND_DOMAIN
  }

  predicate TextKind(kind: string) {
    kind == KIND_SERVICE || kind == KIND_FINDING
  }

  function NonEmpty(s: string): Option<string> {
    if s == "" then None else Some(s)
  }

  /** The switch over kinds in Canonical. */
  function CanonValue(net: Net, kind: string, value: string): Option<string> {
    if NameKind(kind) then NonEmpty(CanonFQDN(value))
    else if kind == KIND_IP then CanonIP(net, value)
    else if kind == KIND_NETBLOCK then net.mask(TrimSpace(value))
    else if kind == KIND_PORT then CanonPort(net, value)
    else if WebKind(kind) then CanonURL(net, value)
    else if TextKind(kind) then NonEmpty(TrimSpace(value))
    else None
  }

  /** A port event's metadata repeats host and port. */
  function PortMeta(net: Net, ev: Event): map<string, string> {
    if ev.kind == KIND_PORT && SplitHostPort(ev.value).Some? && CanonHost(net, SplitHostPort(ev.value).value.host).Some? then
      var e := SplitHostPort(ev.value).value;
      ev.meta["host" := CanonHost(net, e.host).value.text]["port" := Itoa(e.port)]
    else ev.meta
  }

  // ---------------------------------------------------------------- normalize

  const CONTROL_KEYS := {"allow", "deny", "scope", "profile", "alive", "host", "port", "ip", "ips", "fqdns"}

  /** Metadata under a key of its own that controls nothing. */
  function Evidence(meta: map<string, string>, info: map<string, string>, k: string): string
    requires k in meta && k !in CONTROL_KEYS && k !in info
  {
    meta[k]
  }

  /** Metadata that is not control data is copied to info, unless info has it. */
  function WithInfo(meta: map<string, string>, info: map<string, string>): map<string, string> {
    info + (map k | k in meta && k !in CONTROL_KEYS && k !in info :: Evidence(meta, info, k))
  }

  /** The same, as far as the keys `done`. */
  function WithSome(meta: map<string, string>, info: map<string, string>, done: set<string>): map<string, string> {
    info + (map k | k in meta && k in done && k !in CONTROL_KEYS && k !in info :: Evidence(meta, info, k))
  }

  lemma WithOneMore(meta: map<string, string>, info: map<string, string>, done: set<string>, k: string)
    requires k in meta && k !in done
    ensures var out := WithSome(meta, info, done);
      WithSome(meta, info, done + {k}) == if k !in CONTROL_KEYS && k !in out then out[k := meta[k]] else out
  {
  }

  lemma WithAll(meta: map<string, string>, info: map<string, string>)
    ensures WithSome(meta, info, {}) == info && WithSome(meta, info, meta.Keys) == WithInfo(meta, info)
  {
  }

  /** normalize's loop over the metadata, in any order. */
  method CopyInfo(meta: map<string, string>, info: map<string, string>) returns (out: map<string, string>)
    ensures out == WithInfo(meta, info)
  {
    out := info;
    WithAll(meta, info);
    var rest := meta.Keys;
    ghost var done: set<string> := {};
    while rest != {}
      invariant rest !! done && rest + done == meta.Keys && out == WithSome(meta, info, done)
      decreases rest
    {
      var k :| k in rest;
      WithOneMore(meta, info, done, k);
      rest, done := rest - {k}, done + {k};
      if k !in CONTROL_KEYS && k !in out {
        out := out[k := meta[k]];
      }
    }
  }

  function LegacyHost(net: Net, ev: Event): string {
    if CanonIP(net, Lookup(ev.meta, "ip")).Some? then CanonIP(net, Lookup(ev.meta, "ip")).value
    else if CanonIP(net, Lookup(ev.meta, "host")).Some? then CanonIP(net, Lookup(ev.meta, "host")).value
    else ""
  }

  /** Fields that events before schema version 2 kept in their metadata. */
  function Promote(net: Net, ev: Event): Option<Event> {
    if ev.schemaVersion >= SCHEMA_VERSION then Some(ev)
    else
      var t := ev.target;
      var host := if t.host == "" then LegacyHost(net, ev) else t.host;
      var proto := if t.proto == "" then Lookup(ev.meta, "proto") else t.proto;
      var service := if ev.service == "" && (ev.kind == KIND_SERVICE || WebKind(ev.kind)) then Lookup(ev.meta, "name") else ev.service;
      var tls := ev.tls || Lookup(ev.meta, "tunnel") == "ssl";
      var written := Lookup(ev.meta, "port");
      if t.port == 0 && written != "" && Atoi(written).None? then None
      else
        var port := if t.port == 0 && written != "" then Atoi(written).value else t.port;
        Some(ev.(target := t.(host := host, port := port, proto := proto), service := service, tls := tls))
  }

  function DefaultTCP(t: Target): Target {
    if t.proto == "" then t.(proto := TCP) else t
  }

  /** What SplitHostPort returns when its error is ignored. */
  function SplitLoose(value: string): Endpoint {
    if SplitHostPort(value).Some? then SplitHostPort(value).value
    else
      var end := LastIndex(value, ']');
      var i := LastIndex(value, ':');
      if value != "" && value[0] == '[' then
        if end.Some? && end.value > 0 && end.value + 1 < |value| && value[end.value + 1] == ':'
        then Endpoint(value[1..end.value], AtoiLoose(value[end.value + 2..]))
        else Endpoint("", 0)
      else if i.Some? then Endpoint(value[..i.value], AtoiLoose(value[i.value + 1..]))
      else Endpoint("", 0)
  }

  function BindPort(net: Net, ev: Event): Option<Event> {
    var e := SplitLoose(ev.value);
    var t := Bind(net, ev.target, e.host, e.port);
    if t.None? then None else Some(ev.(target := DefaultTCP(t.value)))
  }

  function BindService(net: Net, ev: Event): Option<Event> {
    if !Cut(ev.value) || Behind(ev.value) == "" then None
    else
      var e := SplitHostPort(Before(ev.value));
      if e.None? then None
      else
        var t := Bind(net, ev.target, e.value.host, e.value.port);
        var v := PortValue(net, e.value.host, e.value.port);
        var service := Lower(Behind(ev.value));
        if t.None? || v.None? || (ev.service != "" && Lower(ev.service) != service) then None
        else Some(ev.(target := t.value, service := service, value := v.value + ("/" + service)))
  }

  function WithDefaults(t: Target, from: Target): Target {
    t.(proto := if t.proto == "" then from.proto else t.proto,
       httpHost := if t.httpHost == "" then from.httpHost else t.httpHost,
       sni := if t.sni == "" then from.sni else t.sni)
  }

  function BindWeb(net: Net, ev: Event): Option<Event> {
    var from := URLTarget(net, ev.value);
    if from.None? || (ev.target.url != "" && ev.target.url != from.value.url) then None
    else
      var t := Bind(net, ev.target.(url := from.value.url), Authority(from.value), from.value.port);
      if t.None? then None
      else Some(ev.(target := WithDefaults(t.value, from.value), tls := Tls(from.value.url)))
  }

  function BindKind(net: Net, ev: Event): Option<Event> {
    if ev.kind == KIND_IP then
      if ev.target.host != "" && ev.target.host != ev.value then None else Some(ev.(target := ev.target.(host := ev.value)))
    else if NameKind(ev.kind) then
      if ev.target.name != "" && ev.target.name != ev.value then None
      else Some(ev.(target := ev.target.(name := ev.value)))
    else if ev.kind == KIND_PORT then BindPort(net, ev)
    else if ev.kind == KIND_SERVICE then BindService(net, ev)
    else if WebKind(ev.kind) then BindWeb(net, ev)
    else Some(ev)
  }

  function Retarget(net: Net, ev: Event): Option<Event> {
    var t := CanonTarget(net, ev.target);
    if t.None? then None else Some(ev.(target := t.value))
  }

  function CanonInput(net: Net, input: Option<Input>): Option<Option<Input>> {
    if input.None? then Some(None)
    else
      var t := CanonTarget(net, input.value.target);
      if t.None? then None else Some(Some(input.value.(target := t.value)))
  }

  /** The end of normalize: the target is canonical, bound to the value, and canonical again. */
  function Settle(net: Net, ev: Event): Option<Event> {
    var e1 := Retarget(net, ev);
    if e1.None? then None
    else
      var e2 := BindKind(net, e1.value);
      if e2.None? then None
      else
        var e3 := Retarget(net, e2.value);
        var input := CanonInput(net, ev.input);
        if e3.None? || input.None? then None
        else Some(e3.value.(input := input.value, schemaVersion := SCHEMA_VERSION))
  }

  function Normalize(net: Net, ev: Event): Option<Event> {
    var e := Promote(net, ev.(info := WithInfo(ev.meta, ev.info)));
    if e.None? then None else Settle(net, e.value)
  }

  function Canon(net: Net, ev: Event): Option<Event> {
    if ev.schemaVersion != 0 && ev.schemaVersion != 1 && ev.schemaVersion != SCHEMA_VERSION then None
    else
      var value := CanonValue(net, ev.kind, ev.value);
      if value.None? then None else Normalize(net, ev.(value := value.value, meta := PortMeta(net, ev)))
  }
}
