/** When an observation that matches a tool drops out of the report unnoticed. */
module SilentDrops {
  import opened Wrappers
  import opened Text
  import opened Events
  import opened Rules
  import opened Registry
  import opened Plans
  import opened PlanTheorems
  import Canonical
  import CanonicalBinding
  import CanonicalTheorems
  import Hosts

  // ---------------------------------------------------------------- the last blocker

  /** The reason for which an observation, or the apex it includes, blocks `k`. */
  function Files(t: Contract, ev: Event, k: PreKey): Option<Why> {
    if Blocks(t, ev).Some? && PreKeyOf(t, ev) == k then Blocks(t, ev)
    else if ApexBlocks(t, ev) && PreKeyOf(t, Apex(ev)) == k then Some(Resolution)
    else None
  }

  /** The reason given by the last observation that blocks `k`. */
  function LastWhy(evs: seq<Event>, t: Contract, k: PreKey): Option<Why> {
    if evs == [] then None
    else if Files(t, evs[|evs| - 1], k).Some? then Files(t, evs[|evs| - 1], k)
    else LastWhy(evs[..|evs| - 1], t, k)
  }

  /** The last observation that blocks `k` only waits for liveness: if `k` is a name, it is a bound one. */
  predicate BoundLast(evs: seq<Event>, t: Contract, k: PreKey) {
    LastWhy(evs, t, k) == Some(Liveness)
  }

  lemma {:induction false} FilesBlocks(tools: seq<Contract>, t: Contract, ev: Event, k: PreKey)
    requires OneEach(tools) && t in tools && t.name == k.tool
    ensures Files(t, ev, k).Some? ==> exists b :: BlockerIn(tools, [ev], k, b)
    ensures forall b :: BlockerIn(tools, [ev], k, b) ==> Files(t, ev, k) == Some(b.why)
  {
    if Files(t, ev, k).Some? {
      var b := if Blocks(t, ev).Some? && PreKeyOf(t, ev) == k then Blocker(t, ev, Blocks(t, ev).value) else Blocker(t, Apex(ev), Resolution);
      assert BlocksAt(t, ev, k, b) && ev in [ev];
      assert BlockerIn(tools, [ev], k, b);
    }
    forall b | BlockerIn(tools, [ev], k, b) ensures Files(t, ev, k) == Some(b.why) {
      var t', ev' :| t' in tools && ev' in [ev] && BlocksAt(t', ev', k, b);
      assert t' == t;
      assert |KIND_FQDN| == 4 && |KIND_DOMAIN| == 6;
    }
  }

  /** For every sequence: what is filed under a key is the reason of its last blocker. */
  lemma {:induction false} KeptWhy(tools: seq<Contract>, evs: seq<Event>, t: Contract, k: PreKey)
    requires OneEach(tools) && t in tools && t.name == k.tool
    ensures var m := Planned(tools, evs).blocked;
      LastWhy(evs, t, k) == if k in m then Some(m[k].why) else None
    decreases |evs|
  {
    if evs != [] {
      var n := |evs| - 1;
      KeptWhy(tools, evs[..n], t, k);
      BlockAdd(Planned(tools, evs[..n]), tools, evs[n], k);
      FilesBlocks(tools, t, evs[n], k);
    }
  }

  // ---------------------------------------------------------------- what is filed

  lemma {:induction false} FiledSomewhere(tools: seq<Contract>, evs: seq<Event>, t: Contract, ev: Event, k: PreKey)
    requires t in tools && ev in evs && Files(t, ev, k).Some?
    ensures k in Planned(tools, evs).blocked
  {
    BlockedExactly(tools, evs, k);
    var b := if Blocks(t, ev).Some? && PreKeyOf(t, ev) == k then Blocker(t, ev, Blocks(t, ev).value) else Blocker(t, Apex(ev), Resolution);
    assert BlocksAt(t, ev, k, b) && BlockerIn(tools, evs, k, b);
  }

  /** Every observation that matches a tool is ready for it or waits, and never neither. */
  lemma {:induction false} ReadyOrWaiting(tools: seq<Contract>, evs: seq<Event>, t: Contract, ev: Event)
    requires t in tools && ev in evs && Matches(t, ev)
    ensures Eligible(t, ev) ==> WorkKeyOf(t, ev) in Planned(tools, evs).ready
    ensures !Eligible(t, ev) ==> PreKeyOf(t, ev) in Planned(tools, evs).blocked
  {
    if Eligible(t, ev) {
      ReadyExactly(tools, evs, WorkKeyOf(t, ev));
      assert ReadyFor(t, ev, WorkKeyOf(t, ev));
    } else {
      FiledSomewhere(tools, evs, t, ev, PreKeyOf(t, ev));
    }
  }

  /** What a name's blocker that is not live comes to. */
  lemma {:induction false} KeptIff(tools: seq<Contract>, evs: seq<Event>, t: Contract, k: PreKey)
    requires OneEach(tools) && Named(evs) && t in tools && t.name == k.tool
    ensures Kept(Planned(tools, evs), k) <==>
      && LastWhy(evs, t, k).Some? && !LiveIn(tools, evs, k)
      && (LastWhy(evs, t, k) == Some(Resolution) ==> !BoundIn(tools, evs, BindKey(k.tool, k.scope, k.value)))
  {
    KeptWhy(tools, evs, t, k);
    KeptShape(tools, evs, k);
    BlockedExactly(tools, evs, k);
    EvidenceExactly(tools, evs, k, BindKey(k.tool, k.scope, k.value));
  }

  /** A domain asks for its apex on behalf of every tool that needs live or resolved inputs and matches the
      bare name; the request is kept unless an observation shows the name live, or binds it while the last
      blocker still waits for resolution. */
  lemma {:induction false} ApexAsked(tools: seq<Contract>, evs: seq<Event>, t: Contract, ev: Event, apex: Event)
    requires OneEach(tools) && Named(evs) && t in tools && ev in evs && ev.kind == KIND_DOMAIN
    requires apex == ev.(kind := KIND_FQDN, target := Target("", ev.value, "", 0, "", "", "", ""))
    requires (t.needLive || t.needBinding) && Matches(t, apex)
    ensures var k := PreKeyOf(t, apex);
      && k in Planned(tools, evs).blocked
      && (Kept(Planned(tools, evs), k) <==>
            !LiveIn(tools, evs, k) && (LastWhy(evs, t, k) == Some(Resolution) ==> !BoundIn(tools, evs, BindKeyOf(t, apex))))
  {
    var k := PreKeyOf(t, apex);
    assert apex == Apex(ev);
    FiledSomewhere(tools, evs, t, ev, k);
    KeptWhy(tools, evs, t, k);
    KeptIff(tools, evs, t, k);
  }

  /** A tool that needs neither never waits for anything. */
  lemma {:induction false} NothingAsked(tools: seq<Contract>, evs: seq<Event>, t: Contract, k: PreKey)
    requires OneEach(tools) && t in tools && t.name == k.tool && !t.needLive && !t.needBinding
    ensures k !in Planned(tools, evs).blocked
  {
    BlockedExactly(tools, evs, k);
  }

  // ---------------------------------------------------------------- what is reported

  /** The report has an item for this subject: some live twin's work, or a blocker. */
  ghost predicate Reported(tools: seq<Contract>, evs: seq<Event>, t: Contract, ev: Event) {
    || (exists ev' :: ev' in evs && Eligible(t, ev') && PreKeyOf(t, ev') == PreKeyOf(t, ev)
                      && WorkKeyOf(t, ev') in Planned(tools, evs).ready)
    || Kept(Planned(tools, evs), PreKeyOf(t, ev))
  }

  /** Some observation of the subject `k` can be worked on. */
  ghost predicate Workable(evs: seq<Event>, t: Contract, k: PreKey) {
    exists ev :: ev in evs && Eligible(t, ev) && PreKeyOf(t, ev) == k
  }

  lemma {:induction false} WorkableIsReported(tools: seq<Contract>, evs: seq<Event>, t: Contract, ev: Event)
    requires t in tools && Workable(evs, t, PreKeyOf(t, ev))
    ensures Reported(tools, evs, t, ev)
  {
    var ev' :| ev' in evs && Eligible(t, ev') && PreKeyOf(t, ev') == PreKeyOf(t, ev);
    ReadyExactly(tools, evs, WorkKeyOf(t, ev'));
    assert ReadyFor(t, ev', WorkKeyOf(t, ev'));
  }

  /** A tool that needs live inputs works on exactly what some observation shows to be live. */
  lemma {:induction false} LiveWorkable(tools: seq<Contract>, evs: seq<Event>, t: Contract, k: PreKey)
    requires OneEach(tools) && t in tools && t.name == k.tool
    ensures LiveIn(tools, evs, k) ==> Workable(evs, t, k)
    ensures t.needLive && Workable(evs, t, k) ==> LiveIn(tools, evs, k)
  {
    if t.needLive && Workable(evs, t, k) {
      var ev :| ev in evs && Eligible(t, ev) && PreKeyOf(t, ev) == k;
      assert ProvesLive(t, ev);
    }
  }

  /** A subject has an item exactly when it can be worked on, or its last blocker waits for liveness, or it
      waits for resolution and nothing binds the name. */
  lemma {:induction false} ReportedIff(tools: seq<Contract>, evs: seq<Event>, t: Contract, ev: Event)
    requires OneEach(tools) && Named(evs) && t in tools
    ensures var k := PreKeyOf(t, ev);
      Reported(tools, evs, t, ev) <==>
        || Workable(evs, t, k) || BoundLast(evs, t, k)
        || (LastWhy(evs, t, k) == Some(Resolution) && !BoundIn(tools, evs, BindKey(k.tool, k.scope, k.value)))
  {
    var k := PreKeyOf(t, ev);
    KeptWhy(tools, evs, t, k);
    KeptShape(tools, evs, k);
    BlockedExactly(tools, evs, k);
    LiveWorkable(tools, evs, t, k);
    if Workable(evs, t, k) { WorkableIsReported(tools, evs, t, ev); }
  }

  lemma {:induction false} LastWhySome(evs: seq<Event>, t: Contract, ev: Event)
    requires ev in evs && Blocks(t, ev).Some?
    ensures LastWhy(evs, t, PreKeyOf(t, ev)) in {Some(Resolution), Some(Liveness)}
    decreases |evs|
  {
    InSnoc(evs);
    if ev != evs[|evs| - 1] { LastWhySome(evs[..|evs| - 1], t, ev); }
  }

  /** Only a name can also wait for resolution. */
  lemma {:induction false} LastWhyName(evs: seq<Event>, t: Contract, k: PreKey)
    requires LastWhy(evs, t, k) == Some(Resolution)
    ensures k.kind == KIND_FQDN
    decreases |evs|
  {
    if Files(t, evs[|evs| - 1], k).None? { LastWhyName(evs[..|evs| - 1], t, k); }
  }

  /** What waits for liveness is reported exactly when it is live after all, or the last blocker filed for
      its subject waits for liveness too: an unbound observation of the same name and address that came
      after the last bound one hides it. */
  lemma {:induction false} WaitingIff(tools: seq<Contract>, evs: seq<Event>, t: Contract, ev: Event)
    requires OneEach(tools) && Named(evs) && t in tools && ev in evs && Blocks(t, ev) == Some(Liveness)
    ensures Reported(tools, evs, t, ev) <==> LiveIn(tools, evs, PreKeyOf(t, ev)) || BoundLast(evs, t, PreKeyOf(t, ev))
  {
    var k := PreKeyOf(t, ev);
    ReportedIff(tools, evs, t, ev);
    LiveWorkable(tools, evs, t, k);
    if LastWhy(evs, t, k) == Some(Resolution) {
      LastWhyName(evs, t, k);
      assert Binds(t, ev) && BindKeyOf(t, ev) == BindKey(k.tool, k.scope, k.value);
    }
  }

  // ---------------------------------------------------------------- nothing drops out silently

  /** `twin` binds the name that `ev` only mentions. */
  predicate Twin(t: Contract, ev: Event, twin: Event) {
    Fqdn(ev) && !BoundName(ev) && Fqdn(twin) && BoundName(twin) && BindKeyOf(t, twin) == BindKeyOf(t, ev)
  }

  /** The report has an item for this subject or, if it is an unbound name, for a bound observation of that
      name and scope. */
  ghost predicate Accounted(tools: seq<Contract>, evs: seq<Event>, t: Contract, ev: Event) {
    Reported(tools, evs, t, ev) || exists twin :: twin in evs && Twin(t, ev, twin) && Reported(tools, evs, t, twin)
  }

  ghost predicate NothingDropped(tools: seq<Contract>, evs: seq<Event>, t: Contract) {
    forall ev :: ev in evs && Matches(t, ev) ==> Accounted(tools, evs, t, ev)
  }

  /** No waiting bound name was mentioned unbound, at the same address, after its last bound observation,
      unless it is live. */
  ghost predicate BoundNamesLast(tools: seq<Contract>, evs: seq<Event>, t: Contract) {
    forall ev :: ev in evs && Fqdn(ev) && Blocks(t, ev) == Some(Liveness) ==>
      LiveIn(tools, evs, PreKeyOf(t, ev)) || BoundLast(evs, t, PreKeyOf(t, ev))
  }

  /** It can be worked on, or its last blocker waits for liveness. */
  ghost predicate Served(evs: seq<Event>, t: Contract, ev: Event) {
    Workable(evs, t, PreKeyOf(t, ev)) || BoundLast(evs, t, PreKeyOf(t, ev))
  }

  ghost predicate TwinServed(evs: seq<Event>, t: Contract, ev: Event) {
    exists twin :: twin in evs && Twin(t, ev, twin) && Served(evs, t, twin)
  }

  /** Every unbound name that waits for resolution, and that some observation binds, has an item or a bound
      observation with an item. */
  ghost predicate UnboundServed(tools: seq<Contract>, evs: seq<Event>, t: Contract) {
    forall ev :: ev in evs && Blocks(t, ev) == Some(Resolution) && BoundIn(tools, evs, BindKeyOf(t, ev)) ==>
      Served(evs, t, ev) || TwinServed(evs, t, ev)
  }

  lemma {:induction false} UnboundIff(tools: seq<Contract>, evs: seq<Event>, t: Contract, ev: Event)
    requires OneEach(tools) && Named(evs) && t in tools && ev in evs && Blocks(t, ev) == Some(Resolution)
    ensures Accounted(tools, evs, t, ev) <==>
      Served(evs, t, ev) || TwinServed(evs, t, ev) || !BoundIn(tools, evs, BindKeyOf(t, ev))
  {
    LastWhySome(evs, t, ev);
    ReportedIff(tools, evs, t, ev);
    forall twin | twin in evs && Twin(t, ev, twin)
      ensures Reported(tools, evs, t, twin) ==> Served(evs, t, twin) || !BoundIn(tools, evs, BindKeyOf(t, ev))
      ensures Served(evs, t, twin) ==> Reported(tools, evs, t, twin)
    {
      ReportedIff(tools, evs, t, twin);
    }
  }

  lemma {:induction false} WaitingAccounted(tools: seq<Contract>, evs: seq<Event>, t: Contract, ev: Event)
    requires OneEach(tools) && Named(evs) && t in tools && ev in evs && Blocks(t, ev) == Some(Liveness)
    ensures Accounted(tools, evs, t, ev) <==> (Fqdn(ev) ==> LiveIn(tools, evs, PreKeyOf(t, ev)) || BoundLast(evs, t, PreKeyOf(t, ev)))
  {
    WaitingIff(tools, evs, t, ev);
    LastWhySome(evs, t, ev);
    if LastWhy(evs, t, PreKeyOf(t, ev)) == Some(Resolution) { LastWhyName(evs, t, PreKeyOf(t, ev)); }
  }

  /** For every tool: nothing drops out exactly when waiting bound names come last and waiting unbound names
      that lost their blocker to a binding have an item in its place. */
  lemma {:induction false} NothingDroppedIff(tools: seq<Contract>, evs: seq<Event>, t: Contract)
    requires OneEach(tools) && Named(evs) && t in tools
    ensures NothingDropped(tools, evs, t) <==> BoundNamesLast(tools, evs, t) && UnboundServed(tools, evs, t)
  {
    forall ev | ev in evs && Matches(t, ev)
      ensures Blocks(t, ev).None? ==> Accounted(tools, evs, t, ev)
      ensures Blocks(t, ev) == Some(Liveness) ==>
        (Accounted(tools, evs, t, ev) <==> (Fqdn(ev) ==> LiveIn(tools, evs, PreKeyOf(t, ev)) || BoundLast(evs, t, PreKeyOf(t, ev))))
      ensures Blocks(t, ev) == Some(Resolution) ==>
        (Accounted(tools, evs, t, ev) <==> Served(evs, t, ev) || TwinServed(evs, t, ev) || !BoundIn(tools, evs, BindKeyOf(t, ev)))
    {
      if Blocks(t, ev).None? {
        assert Eligible(t, ev);
        WorkableIsReported(tools, evs, t, ev);
      } else if Blocks(t, ev) == Some(Liveness) {
        WaitingAccounted(tools, evs, t, ev);
      } else {
        UnboundIff(tools, evs, t, ev);
      }
    }
    if BoundNamesLast(tools, evs, t) && UnboundServed(tools, evs, t) {
      assert NothingDropped(tools, evs, t);
    }
  }

  /** What binds a name for a tool that takes unbound names matches it, and so is live or waits. */
  lemma {:induction false} TwinsServed(tools: seq<Contract>, evs: seq<Event>, t: Contract, ev: Event)
    requires OneEach(tools) && t in tools && t.needLive && !t.needBinding && BoundNamesLast(tools, evs, t)
    requires Blocks(t, ev) == Some(Resolution) && BoundIn(tools, evs, BindKeyOf(t, ev))
    ensures TwinServed(evs, t, ev)
  {
    var t', twin :| t' in tools && twin in evs && Binds(t', twin) && BindKeyOf(t', twin) == BindKeyOf(t, ev);
    assert t' == t && Twin(t, ev, twin);
    LiveWorkable(tools, evs, t, PreKeyOf(t, twin));
    if Live(twin) { assert Eligible(t, twin); }
  }

  /** For a tool that needs live inputs and takes unbound names: no matching observation drops out of the
      report exactly when every bound name that waits is live or was observed last. */
  lemma {:induction false} NoSilentDropIff(tools: seq<Contract>, evs: seq<Event>, t: Contract)
    requires OneEach(tools) && Named(evs) && t in tools && t.needLive && !t.needBinding
    ensures NothingDropped(tools, evs, t) <==> BoundNamesLast(tools, evs, t)
  {
    NothingDroppedIff(tools, evs, t);
    if BoundNamesLast(tools, evs, t) {
      forall ev | ev in evs && Blocks(t, ev) == Some(Resolution) && BoundIn(tools, evs, BindKeyOf(t, ev))
        ensures TwinServed(evs, t, ev)
      {
        TwinsServed(tools, evs, t, ev);
      }
    }
  }

  /** In particular if no bound and unbound name with the same address are both waiting. */
  lemma {:induction false} NoSilentDrop(tools: seq<Contract>, evs: seq<Event>, t: Contract)
    requires OneEach(tools) && Named(evs) && NoConflict(tools, evs) && t in tools && t.needLive && !t.needBinding
    ensures NothingDropped(tools, evs, t)
  {
    forall ev | ev in evs && Fqdn(ev) && Blocks(t, ev) == Some(Liveness)
      ensures LiveIn(tools, evs, PreKeyOf(t, ev)) || BoundLast(evs, t, PreKeyOf(t, ev))
    {
      var k, b := PreKeyOf(t, ev), Blocker(t, ev, Liveness);
      assert BlocksAt(t, ev, k, b) && BlockerIn(tools, evs, k, b);
      BlockedExactly(tools, evs, k);
      KeptWhy(tools, evs, t, k);
      if !LiveIn(tools, evs, k) { OneReason(tools, evs, k, b, Planned(tools, evs).blocked[k]); }
    }
    NoSilentDropIff(tools, evs, t);
  }

  // ---------------------------------------------------------------- the order that loses both

  /** A tool that needs live names, and two observations of one name at one address. */
  const PROBE := Contract("p", [KIND_FQDN], true, false, false, ZERO, "")

  function Requested(ip: string): Event {
    Event(SCHEMA_VERSION, "1", "1", "", KIND_FQDN, "a", "", "", Target(ip, "a", NAME_REQUESTED, 0, "", "", "", ""),
          None, "", "", false, map[], map[])
  }

  function Mentioned(ip: string): Event {
    var ev := Requested(ip);
    ev.(id := "2", target := ev.target.(nameRole := NAME_OBSERVED))
  }

  lemma {:induction false} ExampleName()
    ensures Hosts.ValidName("a") && Hosts.CanonFQDN("a") == "a" && Hosts.CanonFQDN("") == ""
  {
    assert Split("a", '.') == ["a"] by { SplitPlain("a", '.'); }
    Hosts.ValidNameCanonical("a");
    TrimSpaceTrims("");
  }

  lemma {:induction false} ExampleValid(ip: string, role: string)
    requires role == NAME_REQUESTED || role == NAME_OBSERVED
    ensures Canonical.TargetValid(Target(ip, "a", role, 0, "", "", "", "")) && Canonical.RoleOf(Target(ip, "a", role, 0, "", "", "", "")) == role
  {
    ExampleName();
  }

  lemma {:induction false} ExampleTarget(net: Hosts.Net, ip: string, role: string)
    requires Hosts.Lawful(net) && Hosts.CanonIP(net, ip) == Some(ip) && (role == NAME_REQUESTED || role == NAME_OBSERVED)
    ensures ip != "" && var t := Target(ip, "a", role, 0, "", "", "", ""); Canonical.CanonTarget(net, t) == Some(t)
  {
    ExampleName();
    ExampleValid(ip, role);
    CanonicalBinding.CanonIPAgain(net, ip);
    CanonicalBinding.FixedFields(net, Target(ip, "a", role, 0, "", "", "", ""));
  }

  /** Both observations are in canonical form, as every reader of the stream sees them. */
  lemma {:induction false} ExampleCanonical(net: Hosts.Net, ip: string)
    requires Hosts.Lawful(net) && Hosts.CanonIP(net, ip) == Some(ip)
    ensures Canonical.Canon(net, Requested(ip)) == Some(Requested(ip)) && Canonical.Canon(net, Mentioned(ip)) == Some(Mentioned(ip))
  {
    ExampleName();
    ExampleTarget(net, ip, NAME_REQUESTED);
    ExampleTarget(net, ip, NAME_OBSERVED);
    CanonicalBinding.KindsDiffer();
    CanonicalTheorems.CanonFixed(net, Requested(ip));
    CanonicalTheorems.CanonFixed(net, Mentioned(ip));
  }

  lemma {:induction false} ProbeDisagrees(ip: string)
    requires ip != ""
    ensures Blocks(PROBE, Requested(ip)) == Some(Liveness) && Blocks(PROBE, Mentioned(ip)) == Some(Resolution)
    ensures PreKeyOf(PROBE, Requested(ip)) == PreKeyOf(PROBE, Mentioned(ip))
  {
    assert KIND_FQDN in PROBE.kinds;
    assert Lookup(map[], "alive") == "" && |"true"| == 4;
    assert |NAME_OBSERVED| == 8 && |NAME_REQUESTED| == 9 && |NAME_DNS_A| == 5;
    assert NAME_OBSERVED[0] != NAME_DNS_AAAA[0];
  }

  /** For any address: seen bound first and unbound later, the name is in the report neither as work nor as a
      blocker. */
  lemma {:induction false} SilentDropExample(ip: string)
    requires ip != ""
    ensures var evs := [Requested(ip), Mentioned(ip)];
      !Reported([PROBE], evs, PROBE, Requested(ip)) && !Accounted([PROBE], evs, PROBE, Mentioned(ip))
  {
    var evs, k := [Requested(ip), Mentioned(ip)], PreKeyOf(PROBE, Requested(ip));
    ProbeDisagrees(ip);
    assert forall ev :: ev in evs ==> !Live(ev) && !Eligible(PROBE, ev);
    assert Binds(PROBE, Requested(ip)) && BindKeyOf(PROBE, Requested(ip)) == BindKey(k.tool, k.scope, k.value);
    ReportedIff([PROBE], evs, PROBE, Requested(ip));
    ReportedIff([PROBE], evs, PROBE, Mentioned(ip));
  }

  /** A tool that needs resolved names, but whose rule only lets mentioned ones through. */
  const BINDER := Contract("p", [KIND_FQDN], false, true, false, FieldIn("name_role", [NAME_OBSERVED]), "")

  lemma {:induction false} BinderNames(ip: string)
    requires ip != ""
    ensures !Matches(BINDER, Requested(ip)) && Blocks(BINDER, Mentioned(ip)) == Some(Resolution)
    ensures Binds(BINDER, Requested(ip)) && BindKeyOf(BINDER, Requested(ip)) == BindKeyOf(BINDER, Mentioned(ip))
  {
    ProbeDisagrees(ip);
    assert KIND_FQDN in BINDER.kinds;
    assert RuleField(Requested(ip), "name_role") == Some(NAME_REQUESTED) && RuleField(Mentioned(ip), "name_role") == Some(NAME_OBSERVED);
    assert |NAME_OBSERVED| == 8 && |NAME_REQUESTED| == 9;
    assert NAME_OBSERVED in [NAME_OBSERVED];
  }

  /** Only tools that need live inputs have anything waiting for liveness. */
  lemma {:induction false} NoneWaits(evs: seq<Event>, t: Contract, k: PreKey)
    requires !t.needLive
    ensures !BoundLast(evs, t, k)
  {
    if evs != [] { NoneWaits(evs[..|evs| - 1], t, k); }
  }

  /** A binding that the tool's rule does not match removes the blocker too, in any order. */
  lemma {:induction false} FilteredDropExample(ip: string, evs: seq<Event>)
    requires ip != "" && Mentioned(ip) in evs && Requested(ip) in evs
    requires forall ev :: ev in evs ==> ev == Requested(ip) || ev == Mentioned(ip)
    ensures Matches(BINDER, Mentioned(ip)) && !Accounted([BINDER], evs, BINDER, Mentioned(ip))
  {
    var ev := Mentioned(ip);
    BinderNames(ip);
    UnboundIff([BINDER], evs, BINDER, ev);
    forall x ensures !Served(evs, BINDER, x) {
      NoneWaits(evs, BINDER, PreKeyOf(BINDER, x));
    }
  }
}
