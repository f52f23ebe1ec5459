/** Port scan results as events (internal/nmapx/nmapx.go). */
module Nmapx {
  import opened Wrappers
  import opened Text
  import opened Decimal
  import opened Events
  import opened Hosts
  import opened Canonical

  datatype OpenPort = OpenPort(port: int, proto: string)

  datatype Scan = Scan(ip: string, ports: seq<OpenPort>)

  /** The name the scan was asked about: never a PTR name or an alias. */
  function RequestedName(net: Net, trigger: Event): string {
    var h := Lookup(trigger.meta, "host");
    if trigger.kind == KIND_FQDN then CanonFQDN(trigger.value)
    else if trigger.target.nameRole == NAME_REQUESTED then trigger.target.name
    else if h != "" && CanonIP(net, h).None? then CanonFQDN(h)
    else ""
  }

  function Blank(kind: string, value: string, target: Target, meta: map<string, string>): Event {
    Event(SCHEMA_VERSION, "", "", "", kind, value, "", "", target, None, "port-scan", "", false, map[], meta)
  }

  function IPEvent(trigger: Event, ip: string): Event {
    Blank(KIND_IP, ip, NO_TARGET.(host := ip), map["netblock" := Lookup(trigger.meta, "netblock")])
  }

  function EndpointTarget(ip: string, name: string, p: OpenPort): Target {
    NO_TARGET.(host := ip, name := name, nameRole := if name == "" then "" else NAME_REQUESTED, port := p.port, proto := p.proto)
  }

  /** PortValue with its error ignored. */
  function PortValueOr(net: Net, host: string, port: int): string {
    if PortValue(net, host, port).Some? then PortValue(net, host, port).value else ""
  }

  function PortEvent(net: Net, trigger: Event, ip: string, p: OpenPort, name: string): Event {
    var t := EndpointTarget(ip, name, p);
    Blank(KIND_PORT, PortValueOr(net, Authority(t), p.port), t,
          map["host" := Authority(t), "port" := Itoa(p.port), "ips" := ip, "fqdns" := RequestedName(net, trigger),
              "netblock" := Lookup(trigger.meta, "netblock")])
  }

  /** The names an open port is reported under: none, and the requested one if there is one. */
  function NamesFor(name: string): seq<string> {
    if name == "" then [""] else ["", name]
  }

  function ForNames(net: Net, trigger: Event, ip: string, p: OpenPort, names: seq<string>): seq<Event> {
    if names == [] then [] else ForNames(net, trigger, ip, p, names[..|names| - 1]) + [PortEvent(net, trigger, ip, p, names[|names| - 1])]
  }

  function ForPorts(net: Net, trigger: Event, ip: string, ports: seq<OpenPort>): seq<Event> {
    if ports == [] then []
    else ForPorts(net, trigger, ip, ports[..|ports| - 1]) +
         ForNames(net, trigger, ip, ports[|ports| - 1], NamesFor(RequestedName(net, trigger)))
  }

  function ForScan(net: Net, trigger: Event, scan: Scan): seq<Event> {
    (if trigger.kind != KIND_IP || scan.ip != trigger.value then [IPEvent(trigger, scan.ip)] else []) +
    ForPorts(net, trigger, scan.ip, scan.ports)
  }

  function Expanded(net: Net, trigger: Event, scans: seq<Scan>): seq<Event> {
    if scans == [] then [] else Expanded(net, trigger, scans[..|scans| - 1]) + ForScan(net, trigger, scans[|scans| - 1])
  }

  /** Expand's three nested loops. */
  method Expand(net: Net, trigger: Event, scans: seq<Scan>) returns (out: seq<Event>)
    ensures out == Expanded(net, trigger, scans)
  {
    out := [];
    var i := 0;
    while i < |scans|
      invariant 0 <= i <= |scans| && out == Expanded(net, trigger, scans[..i])
    {
      assert scans[..i + 1][..i] == scans[..i];
      var more := ExpandScan(net, trigger, scans[i]);
      out := out + more;
      i := i + 1;
    }
    assert scans[..i] == scans;
  }

  method ExpandScan(net: Net, trigger: Event, scan: Scan) returns (out: seq<Event>)
    ensures out == ForScan(net, trigger, scan)
  {
    out := [];
    if trigger.kind != KIND_IP || scan.ip != trigger.value {
      out := out + [IPEvent(trigger, scan.ip)];
    }
    var ports := ExpandPorts(net, trigger, scan);
    out := out + ports;
  }

  method ExpandPorts(net: Net, trigger: Event, scan: Scan) returns (out: seq<Event>)
    ensures out == ForPorts(net, trigger, scan.ip, scan.ports)
  {
    out := [];
    var name := RequestedName(net, trigger);
    var j := 0;
    while j < |scan.ports|
      invariant 0 <= j <= |scan.ports| && out == ForPorts(net, trigger, scan.ip, scan.ports[..j])
    {
      assert scan.ports[..j + 1][..j] == scan.ports[..j];
      var named := ExpandNames(net, trigger, scan.ip, scan.ports[j], name);
      out := out + named;
      j := j + 1;
    }
    assert scan.ports[..j] == scan.ports;
  }

  /** The loop over "" and the name stops after "" when there is no name. */
  method ExpandNames(net: Net, trigger: Event, ip: string, p: OpenPort, name: string) returns (out: seq<Event>)
    ensures out == ForNames(net, trigger, ip, p, NamesFor(name))
  {
    out := [];
    var names := ["", name];
    var k := 0;
    while k < 2
      invariant 0 <= k <= 2 && (k > 0 ==> name != "") && out == ForNames(net, trigger, ip, p, names[..k])
    {
      assert names[..k + 1][..k] == names[..k];
      out := out + [PortEvent(net, trigger, ip, p, names[k])];
      k := k + 1;
      if name == "" {
        assert names[..1] == [""];
        return;
      }
    }
    assert names[..2] == names;
  }

  // ---------------------------------------------------------------- exactly the observed pairs

  lemma {:induction false} NamesExact(net: Net, trigger: Event, ip: string, p: OpenPort, names: seq<string>, ev: Event)
    ensures ev in ForNames(net, trigger, ip, p, names) <==> exists n :: n in names && ev == PortEvent(net, trigger, ip, p, n)
  {
    if names != [] {
      var last := |names| - 1;
      assert names == names[..last] + [names[last]];
      NamesExact(net, trigger, ip, p, names[..last], ev);
    }
  }

  ghost predicate Observed(net: Net, trigger: Event, ip: string, ports: seq<OpenPort>, ev: Event) {
    exists p, n :: p in ports && n in NamesFor(RequestedName(net, trigger)) && ev == PortEvent(net, trigger, ip, p, n)
  }

  lemma {:induction false} PortsExact(net: Net, trigger: Event, ip: string, ports: seq<OpenPort>, ev: Event)
    ensures ev in ForPorts(net, trigger, ip, ports) <==> Observed(net, trigger, ip, ports, ev)
  {
    if ports != [] {
      var last := |ports| - 1;
      assert ports == ports[..last] + [ports[last]];
      PortsExact(net, trigger, ip, ports[..last], ev);
      NamesExact(net, trigger, ip, ports[last], NamesFor(RequestedName(net, trigger)), ev);
    }
  }

  /** Expand reports exactly the address/port pairs that were observed, each bare and, if a name was
      requested, also under that name; no pair is made up of one scan's address and another's port. */
  lemma {:induction false} ExpandExact(net: Net, trigger: Event, scans: seq<Scan>, ev: Event)
    requires ev.kind == KIND_PORT
    ensures ev in Expanded(net, trigger, scans) <==> exists s :: s in scans && Observed(net, trigger, s.ip, s.ports, ev)
  {
    if scans != [] {
      var last := |scans| - 1;
      assert scans == scans[..last] + [scans[last]];
      ExpandExact(net, trigger, scans[..last], ev);
      PortsExact(net, trigger, scans[last].ip, scans[last].ports, ev);
      assert |KIND_IP| == 2 && |KIND_PORT| == 4;
    }
  }

  /** The port events of one open port name that port and no other endpoint. */
  lemma ObservedEndpoint(net: Net, trigger: Event, ip: string, ports: seq<OpenPort>, ev: Event)
    requires Observed(net, trigger, ip, ports, ev)
    ensures OpenPort(ev.target.port, ev.target.proto) in ports && ev.target.host == ip
    ensures ev.target.name == "" || (ev.target.name == RequestedName(net, trigger) && ev.target.nameRole == NAME_REQUESTED)
  {
  }

  /** Conversely every open port is there, bare and named. */
  lemma EveryPortReported(net: Net, trigger: Event, scans: seq<Scan>, s: Scan, p: OpenPort)
    requires s in scans && p in s.ports
    ensures PortEvent(net, trigger, s.ip, p, "") in Expanded(net, trigger, scans)
    ensures RequestedName(net, trigger) != "" ==>
      PortEvent(net, trigger, s.ip, p, RequestedName(net, trigger)) in Expanded(net, trigger, scans)
  {
    var name := RequestedName(net, trigger);
    assert "" in NamesFor(name) && (name != "" ==> name in NamesFor(name));
    ExpandExact(net, trigger, scans, PortEvent(net, trigger, s.ip, p, ""));
    ExpandExact(net, trigger, scans, PortEvent(net, trigger, s.ip, p, name));
    assert Observed(net, trigger, s.ip, s.ports, PortEvent(net, trigger, s.ip, p, ""));
  }

  // ---------------------------------------------------------------- names and addresses

  /** The requested name is the name that was scanned: the value of a name, the requested name of an
      endpoint, or the host an older event was asked about, unless that is an address. */
  lemma RequestedNameIs(net: Net, trigger: Event)
    ensures var name := RequestedName(net, trigger);
      if trigger.kind == "fqdn" then name == CanonFQDN(trigger.value)
      else if trigger.target.nameRole == "requested" then name == trigger.target.name
      else if "host" in trigger.meta && trigger.meta["host"] != "" && net.parse(TrimSpace(trigger.meta["host"])).None?
      then name == CanonFQDN(trigger.meta["host"])
      else name == ""
  {
  }

  /** Names that were only found next to an address (PTR records, certificates, aliases) play no part. */
  lemma FoundNamesIgnored(net: Net, trigger: Event, name: string, role: string)
    requires trigger.target.nameRole != NAME_REQUESTED && role != NAME_REQUESTED
    ensures RequestedName(net, trigger.(target := trigger.target.(name := name, nameRole := role))) == RequestedName(net, trigger)
  {
  }

  /** The fields of a port event. */
  lemma PortEventIs(net: Net, trigger: Event, ip: string, p: OpenPort, name: string)
    ensures var ev := PortEvent(net, trigger, ip, p, name); var shown := if name != "" then name else ip;
      && ev.kind == "port" && ev.target == Target(ip, name, if name != "" then "requested" else "", p.port, p.proto, "", "", "")
      && (PortValue(net, shown, p.port).Some? ==> Some(ev.value) == PortValue(net, shown, p.port))
      && ev.meta == map["host" := shown, "port" := Itoa(p.port), "ips" := ip, "fqdns" := RequestedName(net, trigger),
                        "netblock" := if "netblock" in trigger.meta then trigger.meta["netblock"] else ""]
  {
  }

  ghost predicate NewAddress(trigger: Event, scans: seq<Scan>, ev: Event) {
    exists s :: s in scans && !(trigger.kind == "ip" && trigger.value == s.ip) && ev == IPEvent(trigger, s.ip)
  }

  /** Every scanned address is reported, except the one the scan was asked about. */
  lemma {:induction false} AddressesExact(net: Net, trigger: Event, scans: seq<Scan>, ev: Event)
    requires ev.kind == KIND_IP
    ensures ev in Expanded(net, trigger, scans) <==> NewAddress(trigger, scans, ev)
  {
    if scans != [] {
      var last := |scans| - 1;
      assert scans == scans[..last] + [scans[last]];
      AddressesExact(net, trigger, scans[..last], ev);
      PortsExact(net, trigger, scans[last].ip, scans[last].ports, ev);
      assert |KIND_IP| == 2 && |KIND_PORT| == 4;
    }
  }
}
