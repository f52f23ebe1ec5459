/** What the planner's maps say about the events it has seen, and when the order of the events matters. */
module PlanTheorems {
  import opened Wrappers
  import opened Events
  import opened Gates
  import opened Rules
  import opened Registry
  import opened Plans

  // ---------------------------------------------------------------- hypotheses

  /** Registered workers have different names: the registry keeps one entry per name. */
  ghost predicate OneEach(tools: seq<Contract>) {
    forall t, u :: t in tools && u in tools && t.name == u.name ==> t == u
  }

  /** A canonical name event is named after its value (event/target.go:301-307). */
  predicate NamedEvent(ev: Event) {
    Fqdn(ev) ==> ev.target.name == ev.value
  }

  ghost predicate Named(evs: seq<Event>) {
    forall ev :: ev in evs ==> NamedEvent(ev)
  }

  lemma {:induction false} InSnoc<T>(s: seq<T>)
    requires s != []
    ensures forall x :: x in s <==> x in s[..|s| - 1] || x == s[|s| - 1]
  {
    assert s == s[..|s| - 1] + [s[|s| - 1]];
  }

  // ---------------------------------------------------------------- ready work

  predicate ReadyFor(t: Contract, ev: Event, k: WorkKey) {
    Eligible(t, ev) && WorkKeyOf(t, ev) == k
  }

  ghost predicate AnyReady(tools: seq<Contract>, ev: Event, k: WorkKey) {
    exists t :: t in tools && ReadyFor(t, ev, k)
  }

  ghost predicate SomeoneReady(tools: seq<Contract>, evs: seq<Event>, k: WorkKey) {
    exists t, ev :: t in tools && ev in evs && ReadyFor(t, ev, k)
  }

  ghost predicate WantedFits(tools: seq<Contract>, evs: seq<Event>, w: Wanted, k: WorkKey) {
    w.tool in tools && w.ev in evs && ReadyFor(w.tool, w.ev, k)
  }

  lemma {:induction false} ReadyTools(p: Plan, tools: seq<Contract>, ev: Event, k: WorkKey)
    ensures var q := AddTools(p, tools, ev);
      && (k in q.ready <==> k in p.ready || AnyReady(tools, ev, k))
      && (k in q.ready ==> WantedFits(tools, [ev], q.ready[k], k) || (k in p.ready && q.ready[k] == p.ready[k]))
  {
    if tools != [] {
      var n := |tools| - 1;
      InSnoc(tools);
      ReadyTools(p, tools[..n], ev, k);
      assert AnyReady(tools, ev, k) <==> AnyReady(tools[..n], ev, k) || ReadyFor(tools[n], ev, k);
    }
  }

  lemma {:induction false} ApexesKeep(p: Plan, tools: seq<Contract>, ev: Event)
    ensures var q := AddApexes(p, tools, ev); q == p.(blocked := q.blocked)
  {
    if tools != [] { ApexesKeep(p, tools[..|tools| - 1], ev); }
  }

  lemma {:induction false} ReadyAdd(p: Plan, tools: seq<Contract>, ev: Event, k: WorkKey)
    ensures var q := Add(p, tools, ev);
      && (k in q.ready <==> k in p.ready || AnyReady(tools, ev, k))
      && (k in q.ready ==> WantedFits(tools, [ev], q.ready[k], k) || (k in p.ready && q.ready[k] == p.ready[k]))
  {
    var p1 := p.(unknown := p.unknown + Strangers(tools, ev));
    ReadyTools(p1, tools, ev, k);
    ApexesKeep(AddTools(p1, tools, ev), tools, ev);
  }

  /** The ready keys are exactly the work keys of eligible pairs, each kept with a pair it stands for. */
  lemma {:induction false} ReadyExactly(tools: seq<Contract>, evs: seq<Event>, k: WorkKey)
    ensures var p := Planned(tools, evs);
      && (k in p.ready <==> SomeoneReady(tools, evs, k))
      && (k in p.ready ==> WantedFits(tools, evs, p.ready[k], k))
    decreases |evs|
  {
    if evs != [] {
      var n := |evs| - 1;
      InSnoc(evs);
      ReadyExactly(tools, evs[..n], k);
      ReadyAdd(Planned(tools, evs[..n]), tools, evs[n], k);
    }
  }

  function ReadBack(workers: seq<Contract>): seq<Contract> {
    if workers == [] then [] else ReadBack(workers[..|workers| - 1]) + [Read(Write(Define(workers[|workers| - 1]))).contract]
  }

  lemma {:induction false} ReadBackMembers(workers: seq<Contract>, t: Contract)
    ensures t in ReadBack(workers) <==> exists w :: w in workers && t == Read(Write(Define(w))).contract
  {
    if workers != [] {
      InSnoc(workers);
      ReadBackMembers(workers[..|workers| - 1], t);
    }
  }

  lemma {:induction false} ReadBackReady(workers: seq<Contract>, evs: seq<Event>, k: WorkKey)
    requires forall w :: w in workers ==> Valid(w.filter)
    ensures SomeoneReady(ReadBack(workers), evs, k) <==> SomeoneReady(workers, evs, k)
  {
    if SomeoneReady(ReadBack(workers), evs, k) {
      var t, ev :| t in ReadBack(workers) && ev in evs && ReadyFor(t, ev, k);
      ReadBackMembers(workers, t);
      var w :| w in workers && t == Read(Write(Define(w))).contract;
      ReadAgrees(w, ev);
      assert ReadyFor(w, ev, k);
    }
    if SomeoneReady(workers, evs, k) {
      var w, ev :| w in workers && ev in evs && ReadyFor(w, ev, k);
      var t := Read(Write(Define(w))).contract;
      ReadBackMembers(workers, t);
      ReadAgrees(w, ev);
      assert ReadyFor(t, ev, k);
    }
  }

  /** Planner and runtime agree: run over the contracts as read back from the registry, the ready keys
      are the work keys of exactly the pairs that onMsg, run over the workers' own configurations,
      finds eligible. */
  lemma {:induction false} PlannerAgreesWithRuntime(workers: seq<Contract>, evs: seq<Event>, k: WorkKey)
    requires forall w :: w in workers ==> Valid(w.filter)
    ensures k in Planned(ReadBack(workers), evs).ready <==> SomeoneReady(workers, evs, k)
  {
    ReadyExactly(ReadBack(workers), evs, k);
    ReadBackReady(workers, evs, k);
  }

  // ---------------------------------------------------------------- live and bound evidence

  ghost predicate LiveIn(tools: seq<Contract>, evs: seq<Event>, k: PreKey) {
    exists t, ev :: t in tools && ev in evs && ProvesLive(t, ev) && PreKeyOf(t, ev) == k
  }

  ghost predicate BoundIn(tools: seq<Contract>, evs: seq<Event>, k: BindKey) {
    exists t, ev :: t in tools && ev in evs && Binds(t, ev) && BindKeyOf(t, ev) == k
  }

  lemma {:induction false} EvidenceTools(p: Plan, tools: seq<Contract>, ev: Event, k: PreKey, b: BindKey)
    ensures var q := AddTools(p, tools, ev);
      && (k in q.live <==> k in p.live || LiveIn(tools, [ev], k))
      && (b in q.bound <==> b in p.bound || BoundIn(tools, [ev], b))
  {
    if tools != [] {
      InSnoc(tools);
      EvidenceTools(p, tools[..|tools| - 1], ev, k, b);
    }
  }

  lemma {:induction false} EvidenceExactly(tools: seq<Contract>, evs: seq<Event>, k: PreKey, b: BindKey)
    ensures k in Planned(tools, evs).live <==> LiveIn(tools, evs, k)
    ensures b in Planned(tools, evs).bound <==> BoundIn(tools, evs, b)
    decreases |evs|
  {
    if evs != [] {
      var n := |evs| - 1;
      InSnoc(evs);
      EvidenceExactly(tools, evs[..n], k, b);
      EvidenceAdd(Planned(tools, evs[..n]), tools, evs[n], k, b);
    }
  }

  lemma {:induction false} EvidenceAdd(p: Plan, tools: seq<Contract>, ev: Event, k: PreKey, b: BindKey)
    ensures var q := Add(p, tools, ev);
      && (k in q.live <==> k in p.live || LiveIn(tools, [ev], k))
      && (b in q.bound <==> b in p.bound || BoundIn(tools, [ev], b))
  {
    var p1 := p.(unknown := p.unknown + Strangers(tools, ev));
    EvidenceTools(p1, tools, ev, k, b);
    ApexesKeep(AddTools(p1, tools, ev), tools, ev);
  }

  ghost predicate StrangerIn(tools: seq<Contract>, evs: seq<Event>, name: string) {
    exists ev :: ev in evs && name in AllowList(ev.meta) && !Names(tools, name)
  }

  lemma {:induction false} UnknownTools(p: Plan, tools: seq<Contract>, ev: Event)
    ensures AddTools(p, tools, ev).unknown == p.unknown
  {
    if tools != [] { UnknownTools(p, tools[..|tools| - 1], ev); }
  }

  /** The unknown names are those in allow lists that no tool answers to. */
  lemma {:induction false} UnknownExactly(tools: seq<Contract>, evs: seq<Event>, name: string)
    ensures name in Planned(tools, evs).unknown <==> StrangerIn(tools, evs, name)
    decreases |evs|
  {
    if evs != [] {
      var n := |evs| - 1;
      InSnoc(evs);
      UnknownExactly(tools, evs[..n], name);
      var p := Planned(tools, evs[..n]);
      var p1 := p.(unknown := p.unknown + Strangers(tools, evs[n]));
      UnknownTools(p1, tools, evs[n]);
      ApexesKeep(AddTools(p1, tools, evs[n]), tools, evs[n]);
    }
  }

  // ---------------------------------------------------------------- blockers

  /** Processing `ev` for tool `t` writes blocker `b` under `k`. */
  predicate BlocksAt(t: Contract, ev: Event, k: PreKey, b: Blocker) {
    DirectAt(t, ev, k, b) || ApexAt(t, ev, k, b)
  }

  predicate DirectAt(t: Contract, ev: Event, k: PreKey, b: Blocker) {
    Blocks(t, ev).Some? && k == PreKeyOf(t, ev) && b == Blocker(t, ev, Blocks(t, ev).value)
  }

  predicate ApexAt(t: Contract, ev: Event, k: PreKey, b: Blocker) {
    ApexBlocks(t, ev) && k == PreKeyOf(t, Apex(ev)) && b == Blocker(t, Apex(ev), Resolution)
  }

  ghost predicate BlockerIn(tools: seq<Contract>, evs: seq<Event>, k: PreKey, b: Blocker) {
    exists t, ev :: t in tools && ev in evs && BlocksAt(t, ev, k, b)
  }

  function At(m: map<PreKey, Blocker>, k: PreKey): Option<Blocker> {
    if k in m then Some(m[k]) else None
  }

  ghost predicate DirectIn(tools: seq<Contract>, ev: Event, k: PreKey, b: Blocker) {
    exists t :: t in tools && DirectAt(t, ev, k, b)
  }

  ghost predicate ApexIn(tools: seq<Contract>, ev: Event, k: PreKey, b: Blocker) {
    exists t :: t in tools && ApexAt(t, ev, k, b)
  }

  lemma {:induction false} BlockTools(p: Plan, tools: seq<Contract>, ev: Event, k: PreKey)
    ensures var after := At(AddTools(p, tools, ev).blocked, k);
      || (after == At(p.blocked, k) && forall b :: !DirectIn(tools, ev, k, b))
      || (after.Some? && DirectIn(tools, ev, k, after.value))
  {
    if tools != [] {
      var n := |tools| - 1;
      InSnoc(tools);
      BlockTools(p, tools[..n], ev, k);
      forall b ensures DirectIn(tools, ev, k, b) <==> DirectIn(tools[..n], ev, k, b) || DirectAt(tools[n], ev, k, b) {}
    }
  }

  lemma {:induction false} BlockApexes(p: Plan, tools: seq<Contract>, ev: Event, k: PreKey)
    ensures var after := At(AddApexes(p, tools, ev).blocked, k);
      || (after == At(p.blocked, k) && forall b :: !ApexIn(tools, ev, k, b))
      || (after.Some? && ApexIn(tools, ev, k, after.value))
  {
    if tools != [] {
      var n := |tools| - 1;
      InSnoc(tools);
      BlockApexes(p, tools[..n], ev, k);
      forall b ensures ApexIn(tools, ev, k, b) <==> ApexIn(tools[..n], ev, k, b) || ApexAt(tools[n], ev, k, b) {}
    }
  }

  /** One event either leaves a blocker alone, and then writes none there, or replaces it by one of its own. */
  lemma {:induction false} BlockAdd(p: Plan, tools: seq<Contract>, ev: Event, k: PreKey)
    ensures var after := At(Add(p, tools, ev).blocked, k);
      || (after == At(p.blocked, k) && forall b :: !BlockerIn(tools, [ev], k, b))
      || (after.Some? && BlockerIn(tools, [ev], k, after.value))
  {
    var p1 := p.(unknown := p.unknown + Strangers(tools, ev));
    BlockTools(p1, tools, ev, k);
    BlockApexes(AddTools(p1, tools, ev), tools, ev, k);
    forall b ensures BlockerIn(tools, [ev], k, b) <==> DirectIn(tools, ev, k, b) || ApexIn(tools, ev, k, b) {
      OneBlocks(tools, ev, k, b);
    }
  }

  lemma {:induction false} OneBlocks(tools: seq<Contract>, ev: Event, k: PreKey, b: Blocker)
    ensures BlockerIn(tools, [ev], k, b) <==> DirectIn(tools, ev, k, b) || ApexIn(tools, ev, k, b)
  {
    if DirectIn(tools, ev, k, b) || ApexIn(tools, ev, k, b) {
      var t :| t in tools && BlocksAt(t, ev, k, b);
      assert ev in [ev];
    }
  }

  lemma {:induction false} BlockerSnoc(tools: seq<Contract>, evs: seq<Event>, k: PreKey, b: Blocker)
    requires evs != []
    ensures var n := |evs| - 1;
      BlockerIn(tools, evs, k, b) <==> BlockerIn(tools, evs[..n], k, b) || BlockerIn(tools, [evs[n]], k, b)
  {
    InSnoc(evs);
  }

  /** A key is blocked exactly when some event blocks it, and what is kept is one of those blockers. */
  lemma {:induction false} BlockedExactly(tools: seq<Contract>, evs: seq<Event>, k: PreKey)
    ensures var m := Planned(tools, evs).blocked;
      && (k in m ==> BlockerIn(tools, evs, k, m[k]))
      && (k !in m ==> forall b :: !BlockerIn(tools, evs, k, b))
    decreases |evs|
  {
    if evs != [] {
      var n := |evs| - 1;
      InSnoc(evs);
      BlockedExactly(tools, evs[..n], k);
      BlockAdd(Planned(tools, evs[..n]), tools, evs[n], k);
      forall b ensures BlockerIn(tools, evs, k, b) <==> BlockerIn(tools, evs[..n], k, b) || BlockerIn(tools, [evs[n]], k, b) {
        BlockerSnoc(tools, evs, k, b);
      }
    }
  }

  lemma {:induction false} OnlyBlocker(tools: seq<Contract>, ev: Event, t: Contract, k: PreKey, b: Blocker, b': Blocker)
    requires OneEach(tools) && t in tools && BlocksAt(t, ev, k, b) && BlockerIn(tools, [ev], k, b')
    ensures b' == b
  {
    var t', ev' :| t' in tools && ev' in [ev] && BlocksAt(t', ev', k, b');
    assert t'.name == k.tool == t.name;
    BlockerUnique(t, ev, k, b, b');
  }

  /** The last event that blocks a key decides what is kept there. */
  lemma {:induction false} LastBlocks(tools: seq<Contract>, evs: seq<Event>, ev: Event, t: Contract, k: PreKey, b: Blocker)
    requires OneEach(tools) && t in tools && BlocksAt(t, ev, k, b)
    ensures At(Planned(tools, evs + [ev]).blocked, k) == Some(b)
  {
    assert (evs + [ev])[..|evs|] == evs;
    BlockAdd(Planned(tools, evs), tools, ev, k);
    assert BlockerIn(tools, [ev], k, b) by { assert ev in [ev]; }
    var after := At(Add(Planned(tools, evs), tools, ev).blocked, k);
    if after.Some? && BlockerIn(tools, [ev], k, after.value) {
      OnlyBlocker(tools, ev, t, k, b, after.value);
    }
  }

  lemma {:induction false} BlockerUnique(t: Contract, ev: Event, k: PreKey, b: Blocker, b': Blocker)
    requires BlocksAt(t, ev, k, b) && BlocksAt(t, ev, k, b')
    ensures b == b'
  {
    assert |KIND_FQDN| == 4 && |KIND_DOMAIN| == 6;
  }

  /** What a key says about any blocker filed under it. */
  lemma {:induction false} BlockerShape(t: Contract, ev: Event, k: PreKey, b: Blocker)
    requires BlocksAt(t, ev, k, b) && NamedEvent(ev)
    ensures b.tool == t && t.name == k.tool && PreKeyOf(t, b.ev) == k
    ensures k.kind != KIND_FQDN ==> b.why == Liveness
    ensures k.kind == KIND_FQDN ==> BindKeyOf(t, b.ev) == BindKey(k.tool, k.scope, k.value)
    ensures k.kind == KIND_FQDN ==> (b.why == Liveness <==> BoundName(b.ev))
    ensures k.kind == KIND_FQDN && BoundName(b.ev) ==> b.ev == ev && Binds(t, ev)
  {
  }

  // ---------------------------------------------------------------- order

  predicate SamePlan(p: Plan, q: Plan, key: ItemKey) {
    Reason(p, key) == Reason(q, key)
  }

  /** Every order of the same observations yields the same items, blocked for the same reasons. */
  ghost predicate OrderFree(tools: seq<Contract>, evs: seq<Event>) {
    forall perm: seq<Event>, key :: multiset(perm) == multiset(evs) ==> SamePlan(Planned(tools, perm), Planned(tools, evs), key)
  }

  /** Two names with the same address disagree on whether they are bound, and neither is live. */
  ghost predicate Disagree(tools: seq<Contract>, evs: seq<Event>, t: Contract, e1: Event, e2: Event) {
    && t in tools && e1 in evs && e2 in evs && Fqdn(e1)
    && Blocks(t, e1).Some? && Blocks(t, e2).Some? && PreKeyOf(t, e1) == PreKeyOf(t, e2)
    && BoundName(e1) && !BoundName(e2)
    && !LiveIn(tools, evs, PreKeyOf(t, e1))
  }

  ghost predicate NoConflict(tools: seq<Contract>, evs: seq<Event>) {
    forall t, e1, e2 :: !Disagree(tools, evs, t, e1, e2)
  }

  /** Without a conflict, all blockers filed under a key that is not live give the same reason. */
  lemma {:induction false} OneReason(tools: seq<Contract>, evs: seq<Event>, k: PreKey, b: Blocker, b': Blocker)
    requires Named(evs) && OneEach(tools) && NoConflict(tools, evs) && !LiveIn(tools, evs, k)
    requires BlockerIn(tools, evs, k, b) && BlockerIn(tools, evs, k, b')
    ensures b.why == b'.why
  {
    var t, ev :| t in tools && ev in evs && BlocksAt(t, ev, k, b);
    var t', ev' :| t' in tools && ev' in evs && BlocksAt(t', ev', k, b');
    BlockerShape(t, ev, k, b);
    BlockerShape(t', ev', k, b');
    assert t == t';
    if k.kind == KIND_FQDN && BoundName(b.ev) != BoundName(b'.ev) {
      if BoundName(b.ev) {
        BoundAgainst(t, ev, k, b, ev', b');
        assert Disagree(tools, evs, t, ev, ev');
      } else {
        BoundAgainst(t, ev', k, b', ev, b);
        assert Disagree(tools, evs, t, ev', ev);
      }
    }
  }

  /** An apex has no address, so only the name itself can disagree with a bound name. */
  lemma {:induction false} BoundAgainst(t: Contract, ev: Event, k: PreKey, b: Blocker, ev': Event, b': Blocker)
    requires BlocksAt(t, ev, k, b) && BlocksAt(t, ev', k, b') && NamedEvent(ev) && NamedEvent(ev')
    requires k.kind == KIND_FQDN && BoundName(b.ev) && !BoundName(b'.ev)
    ensures Blocks(t, ev).Some? && Blocks(t, ev').Some? && PreKeyOf(t, ev) == k == PreKeyOf(t, ev')
    ensures Fqdn(ev) && BoundName(ev) && !BoundName(ev')
  {
  }

  lemma {:induction false} KeptShape(tools: seq<Contract>, evs: seq<Event>, k: PreKey)
    requires Named(evs)
    ensures var p := Planned(tools, evs);
      && (Kept(p, k) ==> !LiveIn(tools, evs, k) && BlockerIn(tools, evs, k, p.blocked[k])
                         && (p.blocked[k].why == Resolution ==> !BoundIn(tools, evs, BindKey(k.tool, k.scope, k.value))))
      && (forall b :: BlockerIn(tools, evs, k, b) && !LiveIn(tools, evs, k) && !Kept(p, k) ==>
                         k in p.blocked && p.blocked[k].why == Resolution && BoundIn(tools, evs, BindKey(k.tool, k.scope, k.value)))
  {
    BlockedExactly(tools, evs, k);
    EvidenceExactly(tools, evs, k, BindKey(k.tool, k.scope, k.value));
    var m := Planned(tools, evs).blocked;
    if k in m {
      var t, ev :| t in tools && ev in evs && BlocksAt(t, ev, k, m[k]);
      BlockerShape(t, ev, k, m[k]);
    }
  }

  lemma {:induction false} SameEvidence(tools: seq<Contract>, evs: seq<Event>, perm: seq<Event>, k: PreKey, n: BindKey, w: WorkKey)
    requires forall ev :: ev in perm <==> ev in evs
    ensures LiveIn(tools, perm, k) <==> LiveIn(tools, evs, k)
    ensures BoundIn(tools, perm, n) <==> BoundIn(tools, evs, n)
    ensures SomeoneReady(tools, perm, w) <==> SomeoneReady(tools, evs, w)
    ensures forall b :: BlockerIn(tools, perm, k, b) <==> BlockerIn(tools, evs, k, b)
  {
  }

  lemma {:induction false} SameMembers(perm: seq<Event>, evs: seq<Event>)
    requires multiset(perm) == multiset(evs)
    ensures forall ev :: ev in perm <==> ev in evs
  {
    forall ev ensures ev in perm <==> ev in evs {
      assert ev in perm <==> ev in multiset(perm);
      assert ev in evs <==> ev in multiset(evs);
    }
  }

  lemma {:induction false} NoConflictSame(tools: seq<Contract>, evs: seq<Event>, perm: seq<Event>, key: ItemKey)
    requires Named(evs) && OneEach(tools) && NoConflict(tools, evs) && multiset(perm) == multiset(evs)
    ensures SamePlan(Planned(tools, perm), Planned(tools, evs), key)
  {
    SameMembers(perm, evs);
    if key.Work? {
      ReadyExactly(tools, perm, key.key);
      ReadyExactly(tools, evs, key.key);
      assert SomeoneReady(tools, perm, key.key) <==> SomeoneReady(tools, evs, key.key);
    } else {
      var k := key.pre;
      SameEvidence(tools, evs, perm, k, BindKey(k.tool, k.scope, k.value), Observed("", ""));
      KeptShape(tools, perm, k);
      KeptShape(tools, evs, k);
      SameKept(tools, evs, perm, k);
    }
  }

  lemma {:induction false} SameKept(tools: seq<Contract>, evs: seq<Event>, perm: seq<Event>, k: PreKey)
    requires Named(evs) && OneEach(tools) && NoConflict(tools, evs)
    requires forall b :: BlockerIn(tools, perm, k, b) <==> BlockerIn(tools, evs, k, b)
    requires LiveIn(tools, perm, k) <==> LiveIn(tools, evs, k)
    requires var n := BindKey(k.tool, k.scope, k.value); BoundIn(tools, perm, n) <==> BoundIn(tools, evs, n)
    requires Named(perm)
    ensures Reason(Planned(tools, perm), Prerequisite(k)) == Reason(Planned(tools, evs), Prerequisite(k))
  {
    KeptShape(tools, perm, k);
    KeptShape(tools, evs, k);
    BlockedExactly(tools, perm, k);
    BlockedExactly(tools, evs, k);
    var p, q := Planned(tools, perm), Planned(tools, evs);
    if !LiveIn(tools, evs, k) && k in p.blocked && k in q.blocked {
      OneReason(tools, evs, k, p.blocked[k], q.blocked[k]);
    }
  }

  /** Move one element to the end. */
  function MovedLast(evs: seq<Event>, i: nat): seq<Event>
    requires i < |evs|
  {
    evs[..i] + evs[i + 1..] + [evs[i]]
  }

  lemma {:induction false} MovedSame(evs: seq<Event>, i: nat)
    requires i < |evs|
    ensures multiset(MovedLast(evs, i)) == multiset(evs)
  {
    assert evs == evs[..i] + [evs[i]] + evs[i + 1..];
  }

  /** The order in which the disagreeing name comes last shows what is reported for it. */
  lemma {:induction false} LastDecides(tools: seq<Contract>, evs: seq<Event>, t: Contract, ev: Event) returns (perm: seq<Event>)
    requires OneEach(tools) && t in tools && ev in evs && Blocks(t, ev).Some?
    ensures multiset(perm) == multiset(evs)
    ensures At(Planned(tools, perm).blocked, PreKeyOf(t, ev)) == Some(Blocker(t, ev, Blocks(t, ev).value))
  {
    var i :| 0 <= i < |evs| && evs[i] == ev;
    perm := MovedLast(evs, i);
    MovedSame(evs, i);
    LastBlocks(tools, evs[..i] + evs[i + 1..], ev, t, PreKeyOf(t, ev), Blocker(t, ev, Blocks(t, ev).value));
  }

  lemma {:induction false} ConflictShows(tools: seq<Contract>, evs: seq<Event>, t: Contract, e1: Event, e2: Event)
    requires Named(evs) && OneEach(tools) && Disagree(tools, evs, t, e1, e2)
    ensures !OrderFree(tools, evs)
  {
    var k := PreKeyOf(t, e1);
    var perm1 := LastDecides(tools, evs, t, e1);
    var perm2 := LastDecides(tools, evs, t, e2);
    SameMembers(perm1, evs);
    SameMembers(perm2, evs);
    SameEvidence(tools, evs, perm1, k, BindKey(k.tool, k.scope, k.value), Observed("", ""));
    EvidenceExactly(tools, perm1, k, BindKeyOf(t, e1));
    EvidenceExactly(tools, perm2, k, BindKeyOf(t, e2));
    assert Binds(t, e1) && e1 in perm2 && BindKeyOf(t, e1) == BindKeyOf(t, e2);
    assert Reason(Planned(tools, perm1), Prerequisite(k)) == Some(Some(Liveness));
    assert Reason(Planned(tools, perm2), Prerequisite(k)) == None;
    assert OrderFree(tools, evs) ==>
        SamePlan(Planned(tools, perm1), Planned(tools, evs), Prerequisite(k)) && SamePlan(Planned(tools, perm2), Planned(tools, evs), Prerequisite(k));
  }

  /** The report depends on the order of the observations exactly when a bound and an unbound name with
      the same address are both waiting. */
  lemma {:induction false} OrderIndependence(tools: seq<Contract>, evs: seq<Event>)
    requires Named(evs) && OneEach(tools)
    ensures OrderFree(tools, evs) <==> NoConflict(tools, evs)
  {
    if NoConflict(tools, evs) {
      forall perm: seq<Event>, key | multiset(perm) == multiset(evs)
        ensures SamePlan(Planned(tools, perm), Planned(tools, evs), key)
      {
        NoConflictSame(tools, evs, perm, key);
      }
    } else {
      var t, e1, e2 :| Disagree(tools, evs, t, e1, e2);
      ConflictShows(tools, evs, t, e1, e2);
    }
  }
}
