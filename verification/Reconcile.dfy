/** Joining names with open ports (internal/reconcile/reconcile.go): every handler stores its own fact
    before it reads the opposite ones. */
module Reconcile {
  import opened Wrappers
  import opened Events
  import opened Gates
  import opened Rules
  import opened Text
  import opened Decimal
  import opened Hosts

  const SOURCE := "reconcile"

  function BoundNameRule(): Rule {
    All([Has("host"), Has("name"), FieldIn("name_role", [NAME_REQUESTED, NAME_DNS_A, NAME_DNS_AAAA])])
  }

  function NameSide(): Rule {
    All([FieldIn("kind", [KIND_FQDN]), BoundNameRule()])
  }

  function PortSide(): Rule {
    All([FieldIn("kind", [KIND_PORT]), Has("port"), FieldIn("proto", [TCP, UDP])])
  }

  function InputRule(): Rule {
    All([Not(FieldIn("source", [SOURCE])), Has("host"), Any([NameSide(), PortSide()])])
  }

  predicate Accept(ev: Event) {
    Match(InputRule(), ev)
  }

  predicate IsName(ev: Event) {
    ev.kind == KIND_FQDN && BoundName(ev)
  }

  predicate IsPort(ev: Event) {
    ev.kind == KIND_PORT && ev.target.port > 0 && (ev.target.proto == TCP || ev.target.proto == UDP)
  }

  // ---------------------------------------------------------------- facts

  datatype Gate = Gate(allow: string, deny: string, profile: string)

  /** The parts of a fact's key; the repository digests scope, host, name and gate. */
  datatype FactKey =
    | NameFact(scope: string, host: string, name: string, gate: Gate)
    | PortFact(scope: string, host: string, proto: string, port: int, gate: Gate)

  function GateOf(ev: Event): Gate {
    Gate(Lookup(ev.meta, "allow"), Lookup(ev.meta, "deny"), Lookup(ev.meta, "profile"))
  }

  function KeyFor(ev: Event): Option<FactKey> {
    if IsName(ev) then Some(NameFact(Scope(ev), ev.target.host, ev.target.name, GateOf(ev)))
    else if IsPort(ev) then Some(PortFact(Scope(ev), ev.target.host, ev.target.proto, ev.target.port, GateOf(ev)))
    else None
  }

  /** The prefix watched: the other side of the same scope and host. */
  predicate Opposite(k: FactKey, other: FactKey) {
    k.scope == other.scope && k.host == other.host && k.NameFact? != other.NameFact?
  }

  // ---------------------------------------------------------------- joins

  /** join: the named endpoint, or nothing. */
  function Join(net: Net, name: Event, port: Event): Option<Event> {
    if !BoundName(name) || name.target.host != port.target.host || Scope(name) != Scope(port) then None
    else
      var meta := IntersectGates(name.meta, port.meta);
      var value := PortValue(net, name.target.name, port.target.port);
      if meta.None? || value.None? then None
      else Some(Event(SCHEMA_VERSION, "", "", "", KIND_PORT, value.value, "", "",
                      Target(port.target.host, name.target.name, NAME_REQUESTED, port.target.port, port.target.proto, "", "", ""),
                      None, "name-endpoint-join", "", false,
                      map["name_event_id" := name.id, "port_event_id" := port.id], meta.value))
  }

  function JoinFor(net: Net, ev: Event, other: Event): Option<Event> {
    if ev.kind == KIND_PORT then Join(net, other, ev) else Join(net, ev, other)
  }

  /** A join up to the evidence it cites. */
  function Shape(child: Event): Event {
    child.(info := map[])
  }

  function JoinShape(net: Net, name: Event, port: Event): Option<Event> {
    var j := Join(net, name, port);
    if j.None? then None else Some(Shape(j.value))
  }

  lemma GatesOnly(a: map<string, string>, a': map<string, string>, b: map<string, string>)
    requires Lookup(a, "allow") == Lookup(a', "allow") && Lookup(a, "deny") == Lookup(a', "deny")
    requires Lookup(a, "profile") == Lookup(a', "profile") && Lookup(a, "scope") == Lookup(a', "scope")
    ensures IntersectGates(a, b) == IntersectGates(a', b) && IntersectGates(b, a) == IntersectGates(b, a')
  {
  }

  /** Facts filed under one key join alike. */
  lemma SameNameJoins(net: Net, name: Event, name': Event, port: Event)
    requires IsName(name) && IsName(name') && KeyFor(name) == KeyFor(name')
    ensures JoinShape(net, name, port) == JoinShape(net, name', port)
  {
    GatesOnly(name.meta, name'.meta, port.meta);
  }

  lemma SamePortJoins(net: Net, name: Event, port: Event, port': Event)
    requires IsPort(port) && IsPort(port') && KeyFor(port) == KeyFor(port') && KeyFor(port).value.PortFact? && KeyFor(port').value.PortFact?
    ensures JoinShape(net, name, port) == JoinShape(net, name, port')
  {
    GatesOnly(port.meta, port'.meta, name.meta);
  }

  // ---------------------------------------------------------------- concurrent handlers

  datatype Phase =
    | Arrived(ev: Event)              // accepted; its fact is stored next
    | Stored(ev: Event)               // its snapshot of the opposite facts is next
    | Finished(ev: Event, out: set<Event>)
    | Broken                          // failed or interrupted, at any point

  /** The facts bucket, the deliveries being handled, and (history) every event handed to one. */
  datatype Desk = Desk(facts: map<FactKey, Event>, handlers: map<nat, Phase>, heard: set<Event>)

  datatype Step = Arrive(h: nat, ev: Event) | Put(h: nat) | Look(h: nat) | Break(h: nat)

  const EMPTY := Desk(map[], map[], {})

  function Matching(facts: map<FactKey, Event>, key: FactKey): set<FactKey> {
    set k | k in facts && Opposite(key, k)
  }

  /** The joins a handler finds in a snapshot. */
  function Found(net: Net, facts: map<FactKey, Event>, ev: Event): set<Event>
    requires KeyFor(ev).Some?
  {
    set k | k in Matching(facts, KeyFor(ev).value) && JoinFor(net, ev, facts[k]).Some? :: JoinFor(net, ev, facts[k]).value
  }

  predicate Enabled(d: Desk, s: Step) {
    match s
    case Arrive(h, ev) => h !in d.handlers && Accept(ev) && KeyFor(ev).Some?
    case Put(h) => h in d.handlers && d.handlers[h].Arrived? && KeyFor(d.handlers[h].ev).Some?
    case Look(h) => h in d.handlers && d.handlers[h].Stored? && KeyFor(d.handlers[h].ev).Some?
    case Break(h) => h in d.handlers && !d.handlers[h].Finished?
  }

  function Apply(net: Net, d: Desk, s: Step): Desk
    requires Enabled(d, s)
  {
    match s
    case Arrive(h, ev) => d.(handlers := d.handlers[h := Arrived(ev)], heard := d.heard + {ev})
    case Put(h) =>
      var ev := d.handlers[h].ev;
      d.(facts := d.facts[KeyFor(ev).value := ev], handlers := d.handlers[h := Stored(ev)])
    case Look(h) =>
      var ev := d.handlers[h].ev;
      d.(handlers := d.handlers[h := Finished(ev, Found(net, d.facts, ev))])
    case Break(h) => d.(handlers := d.handlers[h := Broken])
  }

  predicate Runs(net: Net, d: Desk, steps: seq<Step>)
    decreases |steps|
  {
    steps == [] || (Enabled(d, steps[0]) && Runs(net, Apply(net, d, steps[0]), steps[1..]))
  }

  function Final(net: Net, d: Desk, steps: seq<Step>): Desk
    requires Runs(net, d, steps)
    decreases |steps|
  {
    if steps == [] then d else Final(net, Apply(net, d, steps[0]), steps[1..])
  }

  // ---------------------------------------------------------------- the invariant

  /** Facts are filed under their own key, and come from events that were delivered. */
  ghost predicate FactsOk(d: Desk) {
    forall k :: k in d.facts ==> KeyFor(d.facts[k]) == Some(k) && d.facts[k] in d.heard
  }

  predicate Past(p: Phase) {
    p.Stored? || p.Finished?
  }

  predicate Known(d: Desk, p: Phase) {
    !p.Broken? ==> p.ev in d.heard && KeyFor(p.ev).Some? && (Past(p) ==> KeyFor(p.ev).value in d.facts)
  }

  /** The output of a finished handler has this join, up to the evidence it cites. */
  predicate Emits(p: Phase, shape: Event) {
    p.Finished? && exists child :: child in p.out && Shape(child) == shape
  }

  /** Two finished handlers of a joinable pair: one of them has emitted the join. */
  predicate PairOk(net: Net, p: Phase, q: Phase) {
    p.Finished? && q.Finished? && IsName(p.ev) && IsPort(q.ev) && JoinShape(net, p.ev, q.ev).Some? ==>
      Emits(p, JoinShape(net, p.ev, q.ev).value) || Emits(q, JoinShape(net, p.ev, q.ev).value)
  }

  /** What was emitted joins two delivered events. */
  ghost predicate Grounded(net: Net, d: Desk, child: Event) {
    exists name, port :: name in d.heard && port in d.heard && IsName(name) && IsPort(port) && Join(net, name, port) == Some(child)
  }

  ghost predicate Inv(net: Net, d: Desk) {
    && FactsOk(d)
    && (forall h :: h in d.handlers ==> Known(d, d.handlers[h]))
    && (forall h, g :: h in d.handlers && g in d.handlers ==> PairOk(net, d.handlers[h], d.handlers[g]))
    && (forall h, child :: h in d.handlers && d.handlers[h].Finished? && child in d.handlers[h].out ==> Grounded(net, d, child))
  }

  lemma NeverBoth(ev: Event)
    ensures !(IsName(ev) && IsPort(ev))
  {
    assert KIND_FQDN[0] != KIND_PORT[0];
  }

  /** A snapshot taken after the other side's fact was stored contains the join. */
  lemma LookFinds(net: Net, d: Desk, name: Event, port: Event)
    requires FactsOk(d) && IsName(name) && IsPort(port) && JoinShape(net, name, port).Some?
    ensures KeyFor(port).value in d.facts ==> Emits(Finished(name, Found(net, d.facts, name)), JoinShape(net, name, port).value)
    ensures KeyFor(name).value in d.facts ==> Emits(Finished(port, Found(net, d.facts, port)), JoinShape(net, name, port).value)
  {
    NeverBoth(name);
    NeverBoth(port);
    var kn, kp := KeyFor(name).value, KeyFor(port).value;
    if kp in d.facts {
      NeverBoth(d.facts[kp]);
      SamePortJoins(net, name, port, d.facts[kp]);
      assert kp in Matching(d.facts, kn);
      assert JoinFor(net, name, d.facts[kp]).value in Found(net, d.facts, name);
    }
    if kn in d.facts {
      NeverBoth(d.facts[kn]);
      SameNameJoins(net, name, d.facts[kn], port);
      assert kn in Matching(d.facts, kp);
      assert JoinFor(net, port, d.facts[kn]).value in Found(net, d.facts, port);
    }
  }

  /** A handler that finishes now completes every pair with handlers that finished before. */
  lemma LookPairs(net: Net, d: Desk, h: nat, g: nat)
    requires Inv(net, d) && h in d.handlers && d.handlers[h].Stored? && g in d.handlers && d.handlers[g].Finished?
    ensures var p := Finished(d.handlers[h].ev, Found(net, d.facts, d.handlers[h].ev)); var q := d.handlers[g];
      PairOk(net, p, q) && PairOk(net, q, p)
  {
    assert Known(d, d.handlers[h]) && Known(d, d.handlers[g]);
    var a, b := d.handlers[h].ev, d.handlers[g].ev;
    if IsName(a) && IsPort(b) && JoinShape(net, a, b).Some? { LookFinds(net, d, a, b); }
    if IsName(b) && IsPort(a) && JoinShape(net, b, a).Some? { LookFinds(net, d, b, a); }
  }

  lemma FoundGrounded(net: Net, d: Desk, ev: Event, child: Event)
    requires FactsOk(d) && ev in d.heard && KeyFor(ev).Some? && child in Found(net, d.facts, ev)
    ensures Grounded(net, d, child)
  {
    NeverBoth(ev);
    var k :| k in Matching(d.facts, KeyFor(ev).value) && JoinFor(net, ev, d.facts[k]) == Some(child);
    var fact := d.facts[k];
    NeverBoth(fact);
    assert KeyFor(fact) == Some(k) && fact in d.heard;
    if IsPort(ev) {
      assert IsName(fact) && Join(net, fact, ev) == Some(child);
    } else {
      assert IsPort(fact) && KIND_FQDN[0] != KIND_PORT[0] && Join(net, ev, fact) == Some(child);
    }
  }

  lemma SelfPair(net: Net, p: Phase)
    ensures PairOk(net, p, p)
  {
    if p.Finished? { NeverBoth(p.ev); }
  }

  lemma InvLook(net: Net, d: Desk, h: nat)
    requires Inv(net, d) && Enabled(d, Look(h))
    ensures Inv(net, Apply(net, d, Look(h)))
  {
    var p := Finished(d.handlers[h].ev, Found(net, d.facts, d.handlers[h].ev));
    assert Known(d, d.handlers[h]);
    SelfPair(net, p);
    forall g | g in d.handlers && g != h ensures PairOk(net, p, d.handlers[g]) && PairOk(net, d.handlers[g], p) {
      if d.handlers[g].Finished? { LookPairs(net, d, h, g); }
    }
    forall child | child in p.out ensures Grounded(net, d, child) { FoundGrounded(net, d, p.ev, child); }
    FinishedInv(net, d, h, p);
  }

  lemma FinishedInv(net: Net, d: Desk, h: nat, p: Phase)
    requires Inv(net, d) && h in d.handlers && Known(d, p) && p.Finished? && PairOk(net, p, p)
    requires forall g :: g in d.handlers && g != h ==> PairOk(net, p, d.handlers[g]) && PairOk(net, d.handlers[g], p)
    requires forall child :: child in p.out ==> Grounded(net, d, child)
    ensures Inv(net, d.(handlers := d.handlers[h := p]))
  {
    var d' := d.(handlers := d.handlers[h := p]);
    forall g | g in d'.handlers ensures Known(d', d'.handlers[g]) {
      if g != h { assert Known(d, d.handlers[g]); }
    }
    forall child | Grounded(net, d, child) ensures Grounded(net, d', child) {}
  }

  lemma InvStep(net: Net, d: Desk, s: Step)
    requires Inv(net, d) && Enabled(d, s)
    ensures Inv(net, Apply(net, d, s))
  {
    if s.Look? {
      InvLook(net, d, s.h);
    } else {
      InvElse(net, d, s);
    }
  }

  lemma KnownStays(d: Desk, s: Step, net: Net)
    requires Enabled(d, s) && !s.Look? && forall h :: h in d.handlers ==> Known(d, d.handlers[h])
    ensures var d' := Apply(net, d, s); forall h :: h in d'.handlers ==> Known(d', d'.handlers[h])
  {
    var d' := Apply(net, d, s);
    forall g | g in d'.handlers ensures Known(d', d'.handlers[g]) {
      if g in d.handlers { assert Known(d, d.handlers[g]); }
    }
  }

  lemma InvElse(net: Net, d: Desk, s: Step)
    requires Inv(net, d) && Enabled(d, s) && !s.Look?
    ensures Inv(net, Apply(net, d, s))
  {
    var d' := Apply(net, d, s);
    KnownStays(d, s, net);
    forall child | Grounded(net, d, child) ensures Grounded(net, d', child) {}
  }

  lemma {:induction false} InvRun(net: Net, d: Desk, steps: seq<Step>)
    requires Inv(net, d) && Runs(net, d, steps)
    ensures Inv(net, Final(net, d, steps))
    decreases |steps|
  {
    if steps != [] {
      InvStep(net, d, steps[0]);
      InvRun(net, Apply(net, d, steps[0]), steps[1..]);
    }
  }

  // ---------------------------------------------------------------- the theorems

  /** No join is missed: in every interleaving, if a name handler and a port handler of a joinable pair
      both succeed, one of them has emitted the joined endpoint. */
  lemma NoJoinMissed(net: Net, steps: seq<Step>, h: nat, g: nat)
    requires Runs(net, EMPTY, steps)
    requires var d := Final(net, EMPTY, steps);
      && h in d.handlers && g in d.handlers && d.handlers[h].Finished? && d.handlers[g].Finished?
      && IsName(d.handlers[h].ev) && IsPort(d.handlers[g].ev) && JoinShape(net, d.handlers[h].ev, d.handlers[g].ev).Some?
    ensures var d := Final(net, EMPTY, steps); var shape := JoinShape(net, d.handlers[h].ev, d.handlers[g].ev).value;
      Emits(d.handlers[h], shape) || Emits(d.handlers[g], shape)
  {
    InvRun(net, EMPTY, steps);
    var d := Final(net, EMPTY, steps);
    assert PairOk(net, d.handlers[h], d.handlers[g]);
  }

  /** Every event that was delivered has been handled successfully, on whichever delivery. */
  ghost predicate AllHandled(d: Desk) {
    forall ev :: ev in d.heard ==> exists h :: h in d.handlers && d.handlers[h].Finished? && d.handlers[h].ev == ev
  }

  ghost predicate Emitted(d: Desk, shape: Event) {
    exists h :: h in d.handlers && Emits(d.handlers[h], shape)
  }

  /** Some name and some port among these events join to this endpoint. */
  ghost predicate Joinable(net: Net, heard: set<Event>, shape: Event) {
    exists name, port :: name in heard && port in heard && IsName(name) && IsPort(port) && JoinShape(net, name, port) == Some(shape)
  }

  lemma EmittedIsJoinable(net: Net, d: Desk, shape: Event)
    requires Inv(net, d) && Emitted(d, shape)
    ensures Joinable(net, d.heard, shape)
  {
    var h :| h in d.handlers && Emits(d.handlers[h], shape);
    var child :| child in d.handlers[h].out && Shape(child) == shape;
    GroundedJoinable(net, d, child);
  }

  lemma GroundedJoinable(net: Net, d: Desk, child: Event)
    requires Grounded(net, d, child)
    ensures Joinable(net, d.heard, Shape(child))
  {
    var name, port :| name in d.heard && port in d.heard && IsName(name) && IsPort(port) && Join(net, name, port) == Some(child);
    assert JoinShape(net, name, port) == Some(Shape(child));
  }

  lemma JoinableIsEmitted(net: Net, d: Desk, shape: Event)
    requires Inv(net, d) && AllHandled(d) && Joinable(net, d.heard, shape)
    ensures Emitted(d, shape)
  {
    var name, port :| name in d.heard && port in d.heard && IsName(name) && IsPort(port) && JoinShape(net, name, port) == Some(shape);
    var h :| h in d.handlers && d.handlers[h].Finished? && d.handlers[h].ev == name;
    var g :| g in d.handlers && d.handlers[g].Finished? && d.handlers[g].ev == port;
    assert PairOk(net, d.handlers[h], d.handlers[g]);
  }

  /** Once every delivered event has been handled, the joins that handlers returned are exactly those of
      the joinable pairs: a function of what was delivered, whatever the order and the interleaving. */
  lemma JoinsExact(net: Net, steps: seq<Step>, shape: Event)
    requires Runs(net, EMPTY, steps) && AllHandled(Final(net, EMPTY, steps))
    ensures Emitted(Final(net, EMPTY, steps), shape) <==> Joinable(net, Final(net, EMPTY, steps).heard, shape)
  {
    InvRun(net, EMPTY, steps);
    var d := Final(net, EMPTY, steps);
    if Emitted(d, shape) { EmittedIsJoinable(net, d, shape); }
    if Joinable(net, d.heard, shape) { JoinableIsEmitted(net, d, shape); }
  }

  lemma OrderDoesNotMatter(net: Net, steps: seq<Step>, other: seq<Step>, shape: Event)
    requires Runs(net, EMPTY, steps) && Runs(net, EMPTY, other)
    requires AllHandled(Final(net, EMPTY, steps)) && AllHandled(Final(net, EMPTY, other))
    requires Final(net, EMPTY, steps).heard == Final(net, EMPTY, other).heard
    ensures Emitted(Final(net, EMPTY, steps), shape) <==> Emitted(Final(net, EMPTY, other), shape)
  {
    JoinsExact(net, steps, shape);
    JoinsExact(net, other, shape);
  }

  /** A join admits a tool exactly when both sides do. */
  lemma JoinGates(net: Net, name: Event, port: Event, tool: string)
    requires Join(net, name, port).Some?
    ensures Allowed(tool, Join(net, name, port).value.meta) <==> Allowed(tool, name.meta) && Allowed(tool, port.meta)
  {
    GatesExact(name.meta, port.meta);
  }

  /** When two facts join: the name is bound to the port's address, in its scope, some tool may see both, and
      the endpoint can be written. */
  lemma JoinIff(net: Net, name: Event, port: Event)
    ensures Join(net, name, port).Some? <==>
      && name.target.host != "" && name.target.name != "" && name.target.nameRole in {"requested", "dns_a", "dns_aaaa"}
      && name.target.host == port.target.host && Scope(name) == Scope(port)
      && !Disjoint(AllowList(name.meta), AllowList(port.meta))
      && 1 <= port.target.port <= 65535
      && (net.parse(TrimSpace(name.target.name)).Some? || TrimSpace(name.target.name) != "")
  {
  }

  /** And what they join to: the port under the requested name, which cites both. */
  lemma JoinMeans(net: Net, name: Event, port: Event)
    requires Join(net, name, port).Some?
    ensures var r := Join(net, name, port).value;
      && r.kind == "port" && PortValue(net, name.target.name, port.target.port) == Some(r.value)
      && r.target == Target(port.target.host, name.target.name, "requested", port.target.port, port.target.proto, "", "", "")
      && r.info == map["name_event_id" := name.id, "port_event_id" := port.id]
      && Scope(r) == Scope(name) == Scope(port)
      && (var profile := Lookup(name.meta, "profile");
          if profile == Lookup(port.meta, "profile") then "profile" in r.meta && r.meta["profile"] == profile else "profile" !in r.meta)
  {
    JoinParts(net, name, port);
    JoinedRest(name.meta, port.meta);
  }

  lemma JoinParts(net: Net, name: Event, port: Event)
    requires Join(net, name, port).Some?
    ensures Scope(name) == Scope(port) && IntersectGates(name.meta, port.meta) == Some(Join(net, name, port).value.meta)
    ensures var r := Join(net, name, port).value;
      && r.kind == "port" && PortValue(net, name.target.name, port.target.port) == Some(r.value)
      && r.target == Target(port.target.host, name.target.name, "requested", port.target.port, port.target.proto, "", "", "")
      && r.info == map["name_event_id" := name.id, "port_event_id" := port.id]
  {
  }

  /** Handlers that only look at a known kind of event: the input rule and the switch agree. */
  lemma AcceptIff(ev: Event)
    requires ev.target.port >= 0
    ensures Accept(ev) <==> ev.source != SOURCE && ev.target.host != "" && KeyFor(ev).Some?
  {
    AcceptSides(ev);
    NameSideIff(ev);
    PortSideIff(ev);
  }

  lemma AcceptSides(ev: Event)
    ensures Accept(ev) <==> ev.source != SOURCE && ev.target.host != "" && (Match(NameSide(), ev) || Match(PortSide(), ev))
  {
    var r := InputRule();
    var source, host, sides := r.all.rules[0], r.all.rules[1], r.all.rules[2];
    assert Match(r, ev) <==> Match(source, ev) && Match(host, ev) && Match(sides, ev);
    assert Match(source, ev) <==> !Match(source.negated.value, ev);
    assert Match(sides, ev) <==> Match(sides.any.rules[0], ev) || Match(sides.any.rules[1], ev);
  }

  lemma NameSideIff(ev: Event)
    ensures Match(NameSide(), ev) <==> IsName(ev)
  {
    var r := NameSide();
    var kind, bound := r.all.rules[0], r.all.rules[1];
    assert Match(r, ev) <==> Match(kind, ev) && Match(bound, ev);
    assert Match(bound, ev) <==> Match(bound.all.rules[0], ev) && Match(bound.all.rules[1], ev) && Match(bound.all.rules[2], ev);
  }

  lemma PortSideIff(ev: Event)
    requires ev.target.port >= 0
    ensures Match(PortSide(), ev) <==> IsPort(ev)
  {
    var r := PortSide();
    var kind, port, proto := r.all.rules[0], r.all.rules[1], r.all.rules[2];
    assert Match(r, ev) <==> Match(kind, ev) && Match(port, ev) && Match(proto, ev);
    ItoaNonempty(ev.target.port);
  }
}
