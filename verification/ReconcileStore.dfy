/** Store.Handle as it is written, among any number of other handlers. */
module ReconcileStore {
  import opened Wrappers
  import opened Events
  import opened Hosts
  import opened Reconcile

  /** Before a request: what the other handlers do, and whether the request succeeds. */
  datatype Turn = Turn(env: seq<Step>, ok: bool)

  lemma {:induction false} Snoc(net: Net, d: Desk, steps: seq<Step>, s: Step)
    requires Runs(net, d, steps) && Enabled(Final(net, d, steps), s)
    ensures Runs(net, d, steps + [s]) && Final(net, d, steps + [s]) == Apply(net, Final(net, d, steps), s)
    decreases |steps|
  {
    if steps == [] {
      assert [s][1..] == [];
    } else {
      assert (steps + [s])[1..] == steps[1..] + [s];
      Snoc(net, Apply(net, d, steps[0]), steps[1..], s);
    }
  }

  function Actor(s: Step): nat {
    s.h
  }

  class Store {
    const net: Net
    var desk: Desk
    var plan: seq<Turn>
    ghost var log: seq<Step>

    ghost predicate Valid()
      reads this
    {
      Runs(net, EMPTY, log) && Final(net, EMPTY, log) == desk
    }

    constructor (net: Net, plan: seq<Turn>)
      ensures Valid() && this.net == net && this.plan == plan && desk == EMPTY
    {
      this.net := net;
      this.plan := plan;
      desk := EMPTY;
      log := [];
    }

    method Take(s: Step)
      requires Valid() && Enabled(desk, s)
      modifies `desk, `log
      ensures Valid() && desk == Apply(net, old(desk), s) && log == old(log) + [s]
    {
      Snoc(net, EMPTY, log, s);
      desk := Apply(net, desk, s);
      log := log + [s];
    }

    /** Everyone but handler h moves. */
    method Drift(h: nat) returns (ok: bool)
      requires Valid()
      modifies this
      ensures Valid() && old(log) <= log
      ensures h in desk.handlers <==> h in old(desk).handlers
      ensures h in desk.handlers ==> desk.handlers[h] == old(desk).handlers[h]
    {
      if plan == [] {
        return true;
      }
      ok := plan[0].ok;
      var env := plan[0].env;
      plan := plan[1..];
      var i := 0;
      while i < |env|
        invariant 0 <= i <= |env| && Valid() && old(log) <= log
        invariant h in desk.handlers <==> h in old(desk).handlers
        invariant h in desk.handlers ==> desk.handlers[h] == old(desk).handlers[h]
      {
        if Actor(env[i]) != h && Enabled(desk, env[i]) {
          Take(env[i]);
        }
        i := i + 1;
      }
    }

    /** Store the fact of this side. */
    method PutFact(h: nat, ev: Event) returns (ok: bool)
      requires Valid() && h !in desk.handlers && Accept(ev) && KeyFor(ev).Some?
      modifies this
      ensures Valid() && old(log) <= log && h in desk.handlers
      ensures desk.handlers[h] == if ok then Stored(ev) else Broken
    {
      Take(Arrive(h, ev));
      ok := Drift(h);
      Take(if ok then Put(h) else Break(h));
    }

    /** Join this side with every fact of the opposite side in the snapshot. */
    method JoinAll(ev: Event, facts: map<FactKey, Event>) returns (out: seq<Event>)
      requires KeyFor(ev).Some?
      ensures (set child | child in out) == Found(net, facts, ev)
    {
      out := [];
      var key := KeyFor(ev).value;
      var rest := Matching(facts, key);
      while rest != {}
        invariant rest <= Matching(facts, key)
        invariant forall child :: child in out <==>
          exists k :: k in Matching(facts, key) && k !in rest && JoinFor(net, ev, facts[k]) == Some(child)
        decreases rest
      {
        var k :| k in rest;
        rest := rest - {k};
        var child := JoinFor(net, ev, facts[k]);
        if child.Some? {
          out := out + [child.value];
        }
      }
    }

    /** Handle: store first, read second. */
    method Handle(h: nat, ev: Event) returns (r: Option<seq<Event>>)
      requires Valid() && h !in desk.handlers
      modifies this
      ensures Valid() && old(log) <= log
      ensures !Accept(ev) || KeyFor(ev).None? ==> r == Some([]) && desk == old(desk)
      ensures Accept(ev) && KeyFor(ev).Some? ==>
        && h in desk.handlers
        && desk.handlers[h] == if r.Some? then Finished(ev, set child | child in r.value) else Broken
    {
      if !Accept(ev) || KeyFor(ev).None? {
        return Some([]);
      }
      var ok := PutFact(h, ev);
      if !ok {
        return None;
      }
      ok := Drift(h);
      if !ok {
        Take(Break(h));
        return None;
      }
      var out := JoinAll(ev, desk.facts);
      Take(Look(h));
      r := Some(out);
    }
  }
}
