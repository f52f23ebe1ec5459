/** What canonical identity depends on, and what the canonical form leaves alone. */
module Identity {
  import opened Events
  import opened Hosts
  import opened Canonical
  import opened CanonicalBinding
  import opened CanonicalTheorems

  /** The fields Canonical computes identity from, for events of the current schema. */
  predicate SameSubject(a: Event, b: Event) {
    && a.schemaVersion == SCHEMA_VERSION && b.schemaVersion == SCHEMA_VERSION
    && a.kind == b.kind && a.value == b.value && a.target == b.target && a.service == b.service && a.tls == b.tls
  }

  predicate SameParts(a: Event, b: Event) {
    a.kind == b.kind && a.value == b.value && a.target == b.target && a.service == b.service && a.tls == b.tls
  }

  lemma BindPortSame(net: Net, a: Event, b: Event)
    requires SameParts(a, b)
    ensures BindPort(net, a).Some? <==> BindPort(net, b).Some?
    ensures BindPort(net, a).Some? ==> SameParts(BindPort(net, a).value, BindPort(net, b).value)
  {
  }

  lemma BindServiceSame(net: Net, a: Event, b: Event)
    requires SameParts(a, b)
    ensures BindService(net, a).Some? <==> BindService(net, b).Some?
    ensures BindService(net, a).Some? ==> SameParts(BindService(net, a).value, BindService(net, b).value)
  {
  }

  lemma BindWebSame(net: Net, a: Event, b: Event)
    requires SameParts(a, b)
    ensures BindWeb(net, a).Some? <==> BindWeb(net, b).Some?
    ensures BindWeb(net, a).Some? ==> SameParts(BindWeb(net, a).value, BindWeb(net, b).value)
  {
  }

  lemma BindSame(net: Net, a: Event, b: Event)
    requires SameParts(a, b)
    ensures BindKind(net, a).Some? <==> BindKind(net, b).Some?
    ensures BindKind(net, a).Some? ==> SameParts(BindKind(net, a).value, BindKind(net, b).value)
  {
    KindsDiffer();
    if a.kind == KIND_PORT {
      BindPortSame(net, a, b);
    } else if a.kind == KIND_SERVICE {
      BindServiceSame(net, a, b);
    } else if WebKind(a.kind) {
      BindWebSame(net, a, b);
    }
  }

  lemma PreparedSame(net: Net, a: Event, b: Event)
    requires SameSubject(a, b) && Canon(net, a).Some? && Canon(net, b).Some?
    ensures Prepared(net, a).Some? && Prepared(net, b).Some? && SameParts(Prepared(net, a).value, Prepared(net, b).value)
  {
    PreparedShape(net, a);
    PreparedShape(net, b);
  }

  /** Canonical identity depends on nothing else: metadata, provenance and evidence do not change it. */
  lemma CanonSame(net: Net, a: Event, b: Event)
    requires SameSubject(a, b) && Canon(net, a).Some? && Canon(net, b).Some?
    ensures SameParts(Canon(net, a).value, Canon(net, b).value)
  {
    PreparedShape(net, a);
    PreparedShape(net, b);
    PreparedSame(net, a, b);
    var ea, eb := Prepared(net, a).value, Prepared(net, b).value;
    SettleRecord(net, ea);
    SettleRecord(net, eb);
    BindSame(net, Retarget(net, ea).value, Retarget(net, eb).value);
  }

  lemma PortMetaKeeps(net: Net, ev: Event, key: string)
    requires key != "host" && key != "port"
    ensures Lookup(PortMeta(net, ev), key) == Lookup(ev.meta, key)
  {
  }

  predicate SameProvenance(ev: Event, r: Event) {
    r.id == ev.id && r.runId == ev.runId && r.parentId == ev.parentId && r.source == ev.source && r.scanId == ev.scanId
  }

  lemma PreparedProvenance(net: Net, ev: Event)
    requires Canon(net, ev).Some?
    ensures Prepared(net, ev).Some? && SameProvenance(ev, Prepared(net, ev).value)
  {
  }

  /** Canonical leaves identity, provenance and every control key but host and port alone. */
  lemma CanonKeeps(net: Net, ev: Event, key: string)
    requires Canon(net, ev).Some? && key != "host" && key != "port"
    ensures Lookup(Canon(net, ev).value.meta, key) == Lookup(ev.meta, key) && SameProvenance(ev, Canon(net, ev).value)
  {
    PreparedShape(net, ev);
    PreparedProvenance(net, ev);
    PortMetaKeeps(net, ev, key);
    SettleRecord(net, Prepared(net, ev).value);
  }
}
