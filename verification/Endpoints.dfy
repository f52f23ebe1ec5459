/** One endpoint, two routes: the port event joined from separate facts and the one a scan of the name
    reports are the same work. */
module Endpoints {
  import opened Wrappers
  import opened Events
  import opened Registry
  import opened Hosts
  import opened Canonical
  import opened CanonicalTheorems
  import opened Identity
  import Nmapx
  import Reconcile
  import Outputs

  /** `out` is what some delivery publishes for the output `raw` of its handler: stamped with lineage, given
      the gates of the parent, and prepared. */
  ghost predicate PublishedFor(net: Net, raw: Event, out: Event) {
    exists p: Outputs.Printer, s: Outputs.Stamp, parent: Event, i: nat ::
      p.net == net && Outputs.Prepare(p, Outputs.Stamped(s, parent, raw), i) == Some(out)
  }

  /** Preparation adds an ID and a run to the canonical form. */
  lemma PreparedOut(p: Outputs.Printer, ev: Event, i: nat)
    requires Outputs.Prepare(p, ev, i).Some?
    ensures Canon(p.net, ev).Some?
    ensures var r, out := Canon(p.net, ev).value, Outputs.Prepare(p, ev, i).value; out == r.(id := out.id, runId := out.runId)
  {
  }

  lemma CanonVersion(net: Net, ev: Event)
    requires Canon(net, ev).Some?
    ensures Canon(net, ev).value.schemaVersion == SCHEMA_VERSION
  {
    PreparedShape(net, ev);
    SettleRecord(net, Prepared(net, ev).value);
  }

  /** The canonical form of the stamped output, under another ID. */
  lemma PublishedCanon(net: Net, raw: Event, out: Event) returns (stamped: Event)
    requires raw.schemaVersion == SCHEMA_VERSION && PublishedFor(net, raw, out)
    ensures SameSubject(raw, stamped) && Canon(net, stamped).Some? && SameSubject(Canon(net, stamped).value, out)
  {
    var p: Outputs.Printer, s: Outputs.Stamp, parent: Event, i: nat :|
      p.net == net && Outputs.Prepare(p, Outputs.Stamped(s, parent, raw), i) == Some(out);
    stamped := Outputs.Stamped(s, parent, raw);
    PreparedOut(p, stamped, i);
    CanonVersion(net, stamped);
  }

  /** Outputs that describe one subject are published as one subject. */
  lemma PublishedSame(net: Net, raw: Event, raw': Event, out: Event, out': Event)
    requires SameSubject(raw, raw') && PublishedFor(net, raw, out) && PublishedFor(net, raw', out')
    ensures SameSubject(out, out')
  {
    var a := PublishedCanon(net, raw, out);
    var b := PublishedCanon(net, raw', out');
    CanonSame(net, a, b);
  }

  lemma SameWorkKey(net: Net, tool: string, a: Event, b: Event)
    requires SameSubject(a, b) && Scope(a) == Scope(b) && Canon(net, a).Some? && Canon(net, b).Some?
    ensures DedupKey(tool, Canon(net, a).value) == DedupKey(tool, Canon(net, b).value)
  {
    CanonSame(net, a, b);
    assert "scope" != "host" && "scope" != "port";
    CanonKeeps(net, a, "scope");
    CanonKeeps(net, b, "scope");
  }

  /** A name joined with an observed port, and a scan of that name which observed the same port, describe
      the same subject. */
  lemma JoinMeetsExpand(net: Net, name: Event, port: Event, trigger: Event, ip: string, p: Nmapx.OpenPort)
    requires Reconcile.Join(net, name, port).Some? && name.target.name != ""
    requires ip == port.target.host && p == Nmapx.OpenPort(port.target.port, port.target.proto)
    ensures SameSubject(Reconcile.Join(net, name, port).value, Nmapx.PortEvent(net, trigger, ip, p, name.target.name))
  {
  }

  /** Hence they are one piece of work for every tool that reads them, if they were published in one scope. */
  lemma OneWorkKey(net: Net, tool: string, name: Event, port: Event, trigger: Event, ip: string, p: Nmapx.OpenPort, joined: Event, named: Event)
    requires Reconcile.Join(net, name, port).Some? && name.target.name != ""
    requires ip == port.target.host && p == Nmapx.OpenPort(port.target.port, port.target.proto)
    requires PublishedFor(net, Reconcile.Join(net, name, port).value, joined)
    requires PublishedFor(net, Nmapx.PortEvent(net, trigger, ip, p, name.target.name), named)
    requires Scope(joined) == Scope(named) && Canon(net, joined).Some? && Canon(net, named).Some?
    ensures DedupKey(tool, Canon(net, joined).value) == DedupKey(tool, Canon(net, named).value)
  {
    JoinMeetsExpand(net, name, port, trigger, ip, p);
    PublishedSame(net, Reconcile.Join(net, name, port).value, Nmapx.PortEvent(net, trigger, ip, p, name.target.name), joined, named);
    SameWorkKey(net, tool, joined, named);
  }
}
