/** From what a handler returns to the batch that is saved: lineage, inherited gates, canonical form
    (sdk/work.go:313-334, sdk/sdk.go:103-122). */
module Outputs {
  import opened Wrappers
  import opened Events
  import opened Gates
  import opened Registry
  import opened Hosts
  import opened Canonical
  import opened CanonicalTheorems
  import opened Identity

  /** What every output of one execution is stamped with. */
  datatype Stamp = Stamp(tool: string, eventId: string, runId: string, scanId: string, input: Input)

  /** The limits and identifiers an execution cannot choose: the payload limit, and nuid.Next() for the
      i-th output. */
  datatype Printer = Printer(net: Net, fits: Event -> bool, id: nat -> string)

  datatype Handled = Handled(events: seq<Event>, error: Option<string>, retry: bool)

  const INVALID := "invalid output"

  function Stamped(s: Stamp, parent: Event, child: Event): Event {
    child.(schemaVersion := if child.schemaVersion == 0 then SCHEMA_VERSION else child.schemaVersion,
           source := s.tool, parentId := s.eventId, runId := s.runId, scanId := s.scanId,
           input := if child.input.None? then Some(s.input) else child.input,
           probe := if child.probe == "" then s.tool else child.probe,
           meta := InheritGate(parent.meta, child.meta))
  }

  /** prepare: canonical, identified, and not too large. */
  function Prepare(p: Printer, ev: Event, i: nat): Option<Event> {
    var r := Canon(p.net, ev);
    if r.None? then None
    else
      var e1 := if r.value.id == "" then r.value.(id := p.id(i)) else r.value;
      var e2 := if e1.runId == "" && e1.parentId == "" then e1.(runId := e1.id) else e1;
      if p.fits(e2) then Some(e2) else None
  }

  function Output(p: Printer, s: Stamp, parent: Event, outs: seq<Event>, i: nat): Option<Event>
    requires i < |outs|
  {
    Prepare(p, Stamped(s, parent, outs[i]), i)
  }

  /** Every output, prepared or refused. */
  function Outputs(p: Printer, s: Stamp, parent: Event, outs: seq<Event>): (r: seq<Option<Event>>)
    ensures |r| == |outs| && forall i :: 0 <= i < |outs| ==> r[i] == Output(p, s, parent, outs, i)
  {
    seq(|outs|, i requires 0 <= i < |outs| => Output(p, s, parent, outs, i))
  }

  /** One more output. */
  function Taken(h: Handled, output: Option<Event>): Handled {
    if output.Some? then h.(events := h.events + [output.value]) else h.(error := Some(INVALID), retry := false)
  }

  /** The batch made of these outputs, for a handler that returned `error`. */
  function Batched(outputs: seq<Option<Event>>, error: Option<string>, retry: bool): Handled {
    if outputs == [] then Handled([], error, retry)
    else Taken(Batched(outputs[..|outputs| - 1], error, retry), outputs[|outputs| - 1])
  }

  lemma BatchedNext(outputs: seq<Option<Event>>, i: nat, error: Option<string>, retry: bool)
    requires i < |outputs|
    ensures Batched(outputs[..i + 1], error, retry) == Taken(Batched(outputs[..i], error, retry), outputs[i])
  {
    assert outputs[..i + 1][..i] == outputs[..i];
  }

  /** The loop of process over the handler's outputs. */
  method Build(p: Printer, s: Stamp, parent: Event, outs: seq<Event>, error: Option<string>, retry: bool) returns (h: Handled)
    ensures h == Batched(Outputs(p, s, parent, outs), error, retry)
  {
    h := Handled([], error, retry);
    var i := 0;
    while i < |outs|
      invariant 0 <= i <= |outs| && h == Batched(Outputs(p, s, parent, outs)[..i], error, retry)
    {
      h := Append(p, s, parent, outs, i, h, error, retry);
      i := i + 1;
    }
    assert Outputs(p, s, parent, outs)[..i] == Outputs(p, s, parent, outs);
  }

  /** One turn: a valid output joins the batch, an invalid one makes it a terminal failure. */
  method Append(p: Printer, s: Stamp, parent: Event, outs: seq<Event>, i: nat, h: Handled, ghost error: Option<string>, ghost retry: bool)
    returns (r: Handled)
    requires i < |outs| && h == Batched(Outputs(p, s, parent, outs)[..i], error, retry)
    ensures r == Batched(Outputs(p, s, parent, outs)[..i + 1], error, retry)
  {
    BatchedNext(Outputs(p, s, parent, outs), i, error, retry);
    var child := Output(p, s, parent, outs, i);
    if child.None? {
      r := h.(error := Some(INVALID), retry := false);
    } else {
      r := h.(events := h.events + [child.value]);
    }
  }

  // ---------------------------------------------------------------- what the batch contains

  predicate AllValid(outputs: seq<Option<Event>>) {
    forall i :: 0 <= i < |outputs| ==> outputs[i].Some?
  }

  /** Valid siblings survive an invalid one, in order; an invalid one makes the execution a terminal
      failure. */
  lemma {:induction false} BatchedExact(outputs: seq<Option<Event>>, error: Option<string>, retry: bool)
    ensures var h := Batched(outputs, error, retry);
      && (forall ev :: ev in h.events <==> Some(ev) in outputs)
      && (h.error == if AllValid(outputs) then error else Some(INVALID))
      && (h.retry <==> retry && AllValid(outputs))
  {
    if outputs != [] {
      var n := |outputs| - 1;
      assert outputs == outputs[..n] + [outputs[n]];
      BatchedExact(outputs[..n], error, retry);
    }
  }

  lemma PrepareKeeps(p: Printer, ev: Event, i: nat, key: string)
    requires Prepare(p, ev, i).Some? && key != "host" && key != "port"
    ensures Canon(p.net, ev).Some? && Lookup(Prepare(p, ev, i).value.meta, key) == Lookup(ev.meta, key)
    ensures var r := Prepare(p, ev, i).value;
      && r.source == ev.source && r.parentId == ev.parentId && r.scanId == ev.scanId && (ev.parentId != "" ==> r.runId == ev.runId)
      && (ev.id != "" ==> r.id == ev.id) && (ev.id == "" ==> r.id == p.id(i))
  {
    CanonKeeps(p.net, ev, key);
  }

  /** Every output carries its lineage: tool, parent, run and execution. */
  lemma OutputLineage(p: Printer, s: Stamp, parent: Event, outs: seq<Event>, i: nat)
    requires i < |outs| && Output(p, s, parent, outs, i).Some? && s.eventId != ""
    ensures var r := Output(p, s, parent, outs, i).value;
      r.source == s.tool && r.parentId == s.eventId && r.runId == s.runId && r.scanId == s.scanId
  {
    PrepareKeeps(p, Stamped(s, parent, outs[i]), i, "scope");
  }

  /** An output whose handler sets no scope has the scope of the event it was derived from. */
  lemma OutputScope(p: Printer, s: Stamp, parent: Event, outs: seq<Event>, i: nat)
    requires i < |outs| && Output(p, s, parent, outs, i).Some?
    ensures Scope(Output(p, s, parent, outs, i).value) == if Scope(outs[i]) == "" then Scope(parent) else Scope(outs[i])
  {
    InheritLookup(parent.meta, outs[i].meta, "scope");
    PrepareKeeps(p, Stamped(s, parent, outs[i]), i, "scope");
  }

  /** What an output says about its origin: the handler's word, or else the task that was executed; an output
      of no parent and no run starts a run of its own; and none exceeds the payload limit. */
  lemma OutputOrigin(p: Printer, s: Stamp, parent: Event, outs: seq<Event>, i: nat)
    requires i < |outs| && Output(p, s, parent, outs, i).Some?
    ensures var r := Output(p, s, parent, outs, i).value;
      && p.fits(r)
      && r.probe == (if outs[i].probe != "" then outs[i].probe else s.tool)
      && r.runId == (if s.runId == "" && s.eventId == "" then r.id else s.runId)
      && r.input.Some?
      && (var given := if outs[i].input.Some? then outs[i].input.value else s.input;
          r.input.value.kind == given.kind && r.input.value.value == given.value && CanonTarget(p.net, given.target) == Some(r.input.value.target))
  {
    var stamped := Stamped(s, parent, outs[i]);
    CanonOrigin(p.net, stamped);
  }

  /** An output without a version is one of the current version: its metadata are not searched for a target. */
  lemma OutputCurrent(p: Printer, s: Stamp, parent: Event, outs: seq<Event>, i: nat)
    requires i < |outs| && outs[i].schemaVersion == 0
    ensures Output(p, s, parent, outs, i) == Output(p, s, parent, outs[i := outs[i].(schemaVersion := 2)], i)
  {
  }

  lemma SettleOrigin(net: Net, e: Event)
    requires Settle(net, e).Some?
    ensures Settle(net, e).value.probe == e.probe && CanonInput(net, e.input) == Some(Settle(net, e).value.input)
  {
    BindRecord(net, Retarget(net, e).value);
  }

  lemma PreparedOrigin(net: Net, ev: Event)
    requires Canon(net, ev).Some?
    ensures Prepared(net, ev).Some? && Prepared(net, ev).value.probe == ev.probe && Prepared(net, ev).value.input == ev.input
  {
  }

  /** Canonical keeps the probe, and makes the target of the input canonical. */
  lemma CanonOrigin(net: Net, ev: Event)
    requires Canon(net, ev).Some?
    ensures Canon(net, ev).value.probe == ev.probe && CanonInput(net, ev.input) == Some(Canon(net, ev).value.input)
    ensures Canon(net, ev).value.runId == ev.runId && Canon(net, ev).value.parentId == ev.parentId
  {
    PreparedShape(net, ev);
    PreparedOrigin(net, ev);
    SettleOrigin(net, Prepared(net, ev).value);
    CanonKeeps(net, ev, "scope");
  }

  // ---------------------------------------------------------------- message IDs

  /** The ID output i is published under: the handler's, or the next one from nuid. */
  function IdOf(p: Printer, outs: seq<Event>, i: nat): string
    requires i < |outs|
  {
    if outs[i].id == "" then p.id(i) else outs[i].id
  }

  predicate OwnIds(outputs: seq<Option<Event>>, used: set<string>) {
    && (forall i :: 0 <= i < |outputs| && outputs[i].Some? ==> outputs[i].value.id !in used)
    && (forall i, j :: 0 <= i < j < |outputs| && outputs[i].Some? && outputs[j].Some? ==> outputs[i].value.id != outputs[j].value.id)
  }

  lemma {:induction false} BatchIds(outputs: seq<Option<Event>>, error: Option<string>, retry: bool, used: set<string>)
    requires OwnIds(outputs, used)
    ensures FreshIds(Batched(outputs, error, retry).events, used)
  {
    if outputs != [] {
      var n := |outputs| - 1;
      BatchIds(outputs[..n], error, retry, used);
      BatchedExact(outputs[..n], error, retry);
      LastIdNew(outputs, Batched(outputs[..n], error, retry).events);
    }
  }

  /** The last output's ID is none of the earlier ones'. */
  lemma LastIdNew(outputs: seq<Option<Event>>, events: seq<Event>)
    requires outputs != [] && OwnIds(outputs, {}) && forall ev :: ev in events <==> Some(ev) in outputs[..|outputs| - 1]
    ensures outputs[|outputs| - 1].Some? ==> forall k :: 0 <= k < |events| ==> events[k].id != outputs[|outputs| - 1].value.id
  {
    var n := |outputs| - 1;
    forall k | 0 <= k < |events| && outputs[n].Some? ensures events[k].id != outputs[n].value.id {
      assert events[k] in events;
      var i :| 0 <= i < n && outputs[..n][i] == Some(events[k]);
      assert outputs[i] == Some(events[k]);
    }
  }

  lemma PreparedId(p: Printer, s: Stamp, parent: Event, outs: seq<Event>, i: nat)
    requires i < |outs| && Output(p, s, parent, outs, i).Some?
    ensures Output(p, s, parent, outs, i).value.id == IdOf(p, outs, i)
  {
    PrepareKeeps(p, Stamped(s, parent, outs[i]), i, "scope");
  }

  /** The batch has message IDs of its own if the IDs that handlers gave are distinct and new, and so are
      those that nuid adds; in particular if handlers gave none. */
  lemma FreshOutputs(p: Printer, s: Stamp, parent: Event, outs: seq<Event>, error: Option<string>, retry: bool, used: set<string>)
    requires forall i :: 0 <= i < |outs| ==> IdOf(p, outs, i) !in used
    requires forall i, j :: 0 <= i < j < |outs| ==> IdOf(p, outs, i) != IdOf(p, outs, j)
    ensures FreshIds(Batched(Outputs(p, s, parent, outs), error, retry).events, used)
  {
    var outputs := Outputs(p, s, parent, outs);
    forall i | 0 <= i < |outs| && outputs[i].Some? ensures outputs[i].value.id == IdOf(p, outs, i) {
      PreparedId(p, s, parent, outs, i);
    }
    BatchIds(outputs, error, retry, used);
  }

  // ---------------------------------------------------------------- gates, all the way down

  predicate SameGates(a: Meta, b: Meta) {
    Lookup(a, "allow") == Lookup(b, "allow") && Lookup(a, "deny") == Lookup(b, "deny")
  }

  /** `child`, as any reader sees it, was published by a delivery of `parent` whose handler added no gates
      of its own, or only those of another fact it joined. */
  ghost predicate DerivedFrom(parent: Event, child: Event) {
    exists own: Meta :: Owns(parent.meta, own) && SameGates(child.meta, InheritGate(parent.meta, own))
  }

  /** What process publishes is derived in this sense, and stays so when it is read back. */
  lemma OutputDerived(p: Printer, s: Stamp, parent: Event, outs: seq<Event>, i: nat, read: Event)
    requires i < |outs| && Output(p, s, parent, outs, i).Some? && Owns(parent.meta, outs[i].meta)
    requires Canon(p.net, Output(p, s, parent, outs, i).value) == Some(read)
    ensures DerivedFrom(parent, Output(p, s, parent, outs, i).value) && DerivedFrom(parent, read)
  {
    var stamped := Stamped(s, parent, outs[i]);
    PrepareKeeps(p, stamped, i, "allow");
    PrepareKeeps(p, stamped, i, "deny");
    CanonKeeps(p.net, Output(p, s, parent, outs, i).value, "allow");
    CanonKeeps(p.net, Output(p, s, parent, outs, i).value, "deny");
  }

  lemma SameAllowed(a: Meta, b: Meta, tool: string)
    requires SameGates(a, b)
    ensures Allowed(tool, a) == Allowed(tool, b)
  {
  }

  lemma StepDenied(parent: Event, child: Event, tool: string)
    requires DerivedFrom(parent, child) && !Allowed(tool, parent.meta)
    ensures !Allowed(tool, child.meta)
  {
    var own: Meta :| Owns(parent.meta, own) && SameGates(child.meta, InheritGate(parent.meta, own));
    DeniedChild(parent.meta, InheritGate(parent.meta, own), tool);
    SameAllowed(child.meta, InheritGate(parent.meta, own), tool);
  }

  /** Each event derives from the one before. */
  ghost predicate Descent(chain: seq<Event>) {
    |chain| <= 1 || (Descent(chain[..|chain| - 1]) && DerivedFrom(chain[|chain| - 2], chain[|chain| - 1]))
  }

  lemma {:induction false} StillDenied(chain: seq<Event>, tool: string)
    requires chain != [] && Descent(chain) && !Allowed(tool, chain[0].meta)
    ensures !Allowed(tool, chain[|chain| - 1].meta)
    decreases |chain|
  {
    var n := |chain| - 1;
    if n > 0 {
      StillDenied(chain[..n], tool);
      StepDenied(chain[n - 1], chain[n], tool);
    }
  }

  /** A tool that is denied on an event is never eligible for anything derived from it, in any number of
      generations. */
  lemma NeverEligibleDownstream(chain: seq<Event>, tool: Contract)
    requires chain != [] && Descent(chain) && !Allowed(tool.name, chain[0].meta)
    ensures !Eligible(tool, chain[|chain| - 1])
  {
    StillDenied(chain, tool.name);
  }
}
