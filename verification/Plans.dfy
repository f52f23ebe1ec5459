/** Which work a set of observations calls for, and what still blocks it: the planner of
    internal/coverage/coverage.go as functions of the events it has been given. */
module Plans {
  import opened Wrappers
  import opened Events
  import opened Gates
  import opened Registry

  /** "blocked_resolution" and "blocked_liveness". */
  datatype Why = Resolution | Liveness

  /** The subject whose prerequisite is missing. */
  datatype PreKey = PreKey(tool: string, scope: string, kind: string, value: string, host: string)

  /** A name that some event binds to an address. */
  datatype BindKey = BindKey(tool: string, scope: string, name: string)

  datatype Blocker = Blocker(tool: Contract, ev: Event, why: Why)

  datatype Wanted = Wanted(tool: Contract, ev: Event)

  /** The planner's five maps. */
  datatype Plan = Plan(
    ready: map<WorkKey, Wanted>, blocked: map<PreKey, Blocker>, live: set<PreKey>, bound: set<BindKey>, unknown: set<string>)

  const EMPTY := Plan(map[], map[], {}, {}, {})

  function PreKeyOf(t: Contract, ev: Event): PreKey {
    PreKey(t.name, Scope(ev), ev.kind, ev.value, ev.target.host)
  }

  function BindKeyOf(t: Contract, ev: Event): BindKey {
    BindKey(t.name, Scope(ev), ev.target.name)
  }

  predicate Fqdn(ev: Event) {
    ev.kind == KIND_FQDN
  }

  // ---------------------------------------------------------------- one tool, one event

  /** A name this tool cannot work on before it is resolved. */
  predicate Unresolved(t: Contract, ev: Event) {
    t.needBinding && Fqdn(ev) && !BoundName(ev) && Matches(t, ev)
  }

  function Blocks(t: Contract, ev: Event): Option<Why> {
    if Unresolved(t, ev) then Some(Resolution)
    else if Matches(t, ev) && t.needLive && !Live(ev) then Some(if Fqdn(ev) && !BoundName(ev) then Resolution else Liveness)
    else None
  }

  predicate Binds(t: Contract, ev: Event) {
    && Fqdn(ev) && BoundName(ev)
    && ((t.needBinding && ev.kind in t.kinds && Allowed(t.name, ev.meta)) || (t.needLive && Matches(t, ev)))
  }

  predicate ProvesLive(t: Contract, ev: Event) {
    t.needLive && Live(ev) && Eligible(t, ev)
  }

  function Step(p: Plan, t: Contract, ev: Event): Plan {
    p.(ready := if Eligible(t, ev) then p.ready[WorkKeyOf(t, ev) := Wanted(t, ev)] else p.ready,
       blocked := if Blocks(t, ev).Some? then p.blocked[PreKeyOf(t, ev) := Blocker(t, ev, Blocks(t, ev).value)] else p.blocked,
       live := if ProvesLive(t, ev) then p.live + {PreKeyOf(t, ev)} else p.live,
       bound := if Binds(t, ev) then p.bound + {BindKeyOf(t, ev)} else p.bound)
  }

  // ---------------------------------------------------------------- one event

  /** A domain includes its apex as a name that has yet to be resolved. */
  function Apex(ev: Event): Event {
    ev.(kind := KIND_FQDN, target := NO_TARGET.(name := ev.value))
  }

  predicate ApexBlocks(t: Contract, ev: Event) {
    ev.kind == KIND_DOMAIN && (t.needLive || t.needBinding) && Matches(t, Apex(ev))
  }

  function ApexStep(p: Plan, t: Contract, ev: Event): Plan {
    if ApexBlocks(t, ev) then p.(blocked := p.blocked[PreKeyOf(t, Apex(ev)) := Blocker(t, Apex(ev), Resolution)]) else p
  }

  function AddTools(p: Plan, tools: seq<Contract>, ev: Event): Plan {
    if tools == [] then p else Step(AddTools(p, tools[..|tools| - 1], ev), tools[|tools| - 1], ev)
  }

  function AddApexes(p: Plan, tools: seq<Contract>, ev: Event): Plan {
    if tools == [] then p else ApexStep(AddApexes(p, tools[..|tools| - 1], ev), tools[|tools| - 1], ev)
  }

  predicate Names(tools: seq<Contract>, name: string) {
    exists t :: t in tools && t.name == name
  }

  /** Names in the event's allow list that no tool answers to. */
  function Strangers(tools: seq<Contract>, ev: Event): set<string> {
    set name | name in AllowList(ev.meta) && !Names(tools, name)
  }

  function Add(p: Plan, tools: seq<Contract>, ev: Event): Plan {
    AddApexes(AddTools(p.(unknown := p.unknown + Strangers(tools, ev)), tools, ev), tools, ev)
  }

  function Planned(tools: seq<Contract>, evs: seq<Event>): Plan {
    if evs == [] then EMPTY else Add(Planned(tools, evs[..|evs| - 1]), tools, evs[|evs| - 1])
  }

  // ---------------------------------------------------------------- what is reported

  datatype ItemKey = Work(key: WorkKey) | Prerequisite(pre: PreKey)

  datatype Expectation = Ready(wanted: Wanted) | Waiting(blocker: Blocker)

  /** A blocker that later evidence has not removed. */
  predicate Kept(p: Plan, k: PreKey) {
    && k in p.blocked && k !in p.live
    && (p.blocked[k].why == Resolution ==> BindKeyOf(p.blocked[k].tool, p.blocked[k].ev) !in p.bound)
  }

  function Expectations(p: Plan): map<ItemKey, Expectation> {
    Among(p, p.blocked.Keys)
  }

  function ReadyAt(ready: map<WorkKey, Wanted>, k: WorkKey): Expectation
    requires k in ready
  {
    Ready(ready[k])
  }

  function WaitingAt(blocked: map<PreKey, Blocker>, k: PreKey): Expectation
    requires k in blocked
  {
    Waiting(blocked[k])
  }

  function Runnable(p: Plan): map<ItemKey, Expectation> {
    map k | k in p.ready :: Work(k) := ReadyAt(p.ready, k)
  }

  function Held(p: Plan, ks: set<PreKey>): map<ItemKey, Expectation> {
    map k | k in ks && Kept(p, k) :: Prerequisite(k) := WaitingAt(p.blocked, k)
  }

  /** The ready work, and those of the blockers `ks` that are kept. */
  function Among(p: Plan, ks: set<PreKey>): map<ItemKey, Expectation> {
    Runnable(p) + Held(p, ks)
  }

  lemma HeldStep(p: Plan, ks: set<PreKey>, k: PreKey)
    ensures Held(p, ks + {k}) == if Kept(p, k) then Held(p, ks)[Prerequisite(k) := Waiting(p.blocked[k])] else Held(p, ks)
  {
  }

  lemma AmongStep(p: Plan, ks: set<PreKey>, k: PreKey)
    ensures Among(p, ks + {k}) == if Kept(p, k) then Among(p, ks)[Prerequisite(k) := Waiting(p.blocked[k])] else Among(p, ks)
  {
    HeldStep(p, ks, k);
    var held := Held(p, ks);
    assert Kept(p, k) ==> Runnable(p) + held[Prerequisite(k) := Waiting(p.blocked[k])] == (Runnable(p) + held)[Prerequisite(k) := Waiting(p.blocked[k])];
  }

  /** Is the item reported, and with which reason. */
  function Reason(p: Plan, key: ItemKey): Option<Option<Why>> {
    match key
    case Work(k) => if k in p.ready then Some(None) else None
    case Prerequisite(k) => if Kept(p, k) then Some(Some(p.blocked[k].why)) else None
  }

  lemma ReasonReports(p: Plan, key: ItemKey)
    ensures key in Expectations(p) <==> Reason(p, key).Some?
    ensures key in Expectations(p) ==>
      match Expectations(p)[key]
      case Ready(_) => Reason(p, key) == Some(None)
      case Waiting(b) => Reason(p, key) == Some(Some(b.why))
  {
  }

  // ---------------------------------------------------------------- the imperative planner

  class Planner {
    const tools: seq<Contract>
    var ready: map<WorkKey, Wanted>
    var blocked: map<PreKey, Blocker>
    var live: set<PreKey>
    var bound: set<BindKey>
    var unknown: set<string>

    ghost function State(): Plan
      reads this
    {
      Plan(ready, blocked, live, bound, unknown)
    }

    constructor (tools: seq<Contract>)
      ensures State() == EMPTY && this.tools == tools
    {
      this.tools := tools;
      ready, blocked, live, bound, unknown := map[], map[], {}, {}, {};
    }

    /** One observation, as the code walks it. */
    method Observe(ev: Event)
      modifies this
      ensures State() == Add(old(State()), tools, ev)
    {
      NoteStrangers(ev);
      ghost var p := State();
      var i := 0;
      while i < |tools|
        invariant 0 <= i <= |tools| && State() == AddTools(p, tools[..i], ev)
      {
        assert tools[..i + 1][..i] == tools[..i];
        ObserveFor(tools[i], ev);
        i := i + 1;
      }
      assert tools[..i] == tools;
      NoteApexes(ev);
    }

    method NoteStrangers(ev: Event)
      modifies `unknown
      ensures unknown == old(unknown) + Strangers(tools, ev)
    {
      var names := SplitList(Lookup(ev.meta, "allow"));
      var i := 0;
      while i < |names|
        invariant 0 <= i <= |names|
        invariant unknown == old(unknown) + set name | name in names[..i] && !Names(tools, name)
      {
        if !Names(tools, names[i]) {
          unknown := unknown + {names[i]};
        }
        i := i + 1;
      }
      assert names[..i] == AllowList(ev.meta);
    }

    /** The body of the loop over tools. */
    method ObserveFor(tool: Contract, ev: Event)
      modifies this
      ensures State() == Step(old(State()), tool, ev)
    {
      if tool.needBinding && ev.kind == KIND_FQDN && ev.kind in tool.kinds && Allowed(tool.name, ev.meta) {
        if BoundName(ev) {
          bound := bound + {BindKeyOf(tool, ev)};
        } else if Matches(tool, ev) {
          blocked := blocked[PreKeyOf(tool, ev) := Blocker(tool, ev, Resolution)];
          return;
        }
      }
      if !Matches(tool, ev) {
        return;
      }
      if tool.needLive {
        if ev.kind == KIND_FQDN && BoundName(ev) {
          bound := bound + {BindKeyOf(tool, ev)};
        }
        var key := PreKeyOf(tool, ev);
        if !Live(ev) {
          var reason := Liveness;
          if ev.kind == KIND_FQDN && !BoundName(ev) {
            reason := Resolution;
          }
          blocked := blocked[key := Blocker(tool, ev, reason)];
          return;
        }
        live := live + {key};
      }
      ready := ready[WorkKeyOf(tool, ev) := Wanted(tool, ev)];
    }

    method NoteApexes(ev: Event)
      modifies `blocked
      ensures State() == AddApexes(old(State()), tools, ev)
    {
      ghost var p := State();
      if ev.kind == KIND_DOMAIN {
        var apex := Apex(ev);
        var i := 0;
        while i < |tools|
          invariant 0 <= i <= |tools| && State() == AddApexes(p, tools[..i], ev)
        {
          assert tools[..i + 1][..i] == tools[..i];
          var tool := tools[i];
          if (tool.needLive || tool.needBinding) && Matches(tool, apex) {
            blocked := blocked[PreKeyOf(tool, apex) := Blocker(tool, apex, Resolution)];
          }
          i := i + 1;
        }
        assert tools[..i] == tools;
      } else {
        NoApexes(p, tools, ev);
      }
    }

    /** Is this blocker still unanswered? */
    method Unanswered(k: PreKey) returns (kept: bool)
      requires k in blocked
      ensures kept == Kept(State(), k)
    {
      var v := blocked[k];
      kept := k !in live && !(v.why == Resolution && BindKeyOf(v.tool, v.ev) in bound);
    }

    method Report() returns (out: map<ItemKey, Expectation>)
      ensures out == Expectations(State())
    {
      ghost var p := State();
      out := map k | k in ready :: Work(k) := ReadyAt(ready, k);
      assert Held(p, {}) == map[];
      var rest := blocked.Keys;
      ghost var done: set<PreKey> := {};
      while rest != {}
        invariant rest !! done && done + rest == blocked.Keys && out == Among(p, done)
        decreases rest
      {
        var k :| k in rest;
        AmongStep(p, done, k);
        rest, done := rest - {k}, done + {k};
        var kept := Unanswered(k);
        if kept {
          out := out[Prerequisite(k) := Waiting(blocked[k])];
        }
      }
    }
  }

  lemma {:induction false} NoApexes(p: Plan, tools: seq<Contract>, ev: Event)
    requires ev.kind != KIND_DOMAIN
    ensures AddApexes(p, tools, ev) == p
  {
    if tools != [] { NoApexes(p, tools[..|tools| - 1], ev); }
  }
}
