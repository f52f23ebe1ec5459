/** What a complete report says about observations that a tool was not ready for. */
module CompleteReports {
  import opened Events
  import opened Work
  import opened Registry
  import opened Plans
  import opened PlanTheorems
  import opened SilentDrops
  import opened Cluster
  import opened Coverage
  import opened Reports

  /** A registered worker has completed a task for this subject. */
  ghost predicate Worked(s: System, evs: seq<Event>, t: Contract, k: PreKey) {
    exists ev :: ev in evs && Eligible(t, ev) && PreKeyOf(t, ev) == k && Done(s, t, ev)
  }

  /** For the subject of `ev` or, if it is an unbound name, for a bound observation of that name and scope. */
  ghost predicate WorkedFor(s: System, evs: seq<Event>, t: Contract, ev: Event) {
    Worked(s, evs, t, PreKeyOf(t, ev)) || exists twin :: twin in evs && Twin(t, ev, twin) && Worked(s, evs, t, PreKeyOf(t, twin))
  }

  predicate AllDone(r: Report) {
    forall key :: key in r.items ==> r.items[key].state == Recorded(Completed)
  }

  /** A blocker would be an item that is not completed. */
  lemma {:induction false} NothingKept(s: System, tools: seq<Contract>, r: Report, k: PreKey)
    requires Faithful(s, tools, r) && AllDone(r)
    ensures !Kept(Planned(tools, Selection(s.log, r.filter)), k)
  {
    var plan := Planned(tools, Selection(s.log, r.filter));
    if Kept(plan, k) {
      ReasonReports(plan, Prerequisite(k));
      assert false;
    }
  }

  /** So what is reported has been worked on. */
  lemma {:induction false} ReportedIsWorked(s: System, tools: seq<Contract>, r: Report, t: Contract, ev: Event)
    requires OneEach(tools) && Faithful(s, tools, r) && AllDone(r) && t in tools
    ensures var evs := Selection(s.log, r.filter); Reported(tools, evs, t, ev) <==> Worked(s, evs, t, PreKeyOf(t, ev))
  {
    var evs, k := Selection(s.log, r.filter), PreKeyOf(t, ev);
    NothingKept(s, tools, r, k);
    forall ev' | ev' in evs && Eligible(t, ev') ensures Done(s, t, ev') {
      PairDone(s, tools, r, t, ev');
    }
    if Worked(s, evs, t, k) { WorkableIsReported(tools, evs, t, ev); }
  }

  /** What a complete report says about names that wait: for a tool that needs live inputs and takes unbound
      names, every matching observation has been worked on, for its own subject or for a bound observation of
      the name it mentions, exactly if no name dropped out. */
  lemma {:induction false} CompleteCoversIff(s: System, tools: seq<Contract>, r: Report, t: Contract)
    requires Coherent(s) && Faithful(s, tools, r) && AllDone(r)
    requires Registered(s, t) && t.needLive && !t.needBinding && Named(Selection(s.log, r.filter))
    ensures var evs := Selection(s.log, r.filter);
      (forall ev :: ev in evs && Matches(t, ev) ==> WorkedFor(s, evs, t, ev)) <==> BoundNamesLast(tools, evs, t)
  {
    var evs := Selection(s.log, r.filter);
    ToolsAre(s.registry, tools);
    NoSilentDropIff(tools, evs, t);
    forall ev ensures Reported(tools, evs, t, ev) <==> Worked(s, evs, t, PreKeyOf(t, ev)) {
      ReportedIsWorked(s, tools, r, t, ev);
    }
    assert forall ev :: Accounted(tools, evs, t, ev) <==> WorkedFor(s, evs, t, ev);
  }
}
