/** Snapshot as it is written: bounded reads while the deployment keeps running, then a comparison of
    the counters before and after. */
module Snapshots {
  import opened Wrappers
  import opened Events
  import opened Work
  import opened Registry
  import opened Plans
  import opened Cluster
  import opened Coverage
  import opened Reports

  /** A deployment observed from one place. `plan` says what happens between two of its requests. */
  class Site {
    var system: System
    var plan: seq<seq<Move>>

    ghost predicate Valid()
      reads this
    {
      Coherent(system)
    }

    constructor (plan: seq<seq<Move>>)
      ensures Valid() && system == START && this.plan == plan
    {
      system := START;
      this.plan := plan;
    }

    /** Time for everyone else. */
    method Drift()
      requires Valid()
      modifies this
      ensures Valid() && Grows(old(system), system)
    {
      if plan == [] {
        return;
      }
      var moves := plan[0];
      plan := plan[1..];
      var i := 0;
      while i < |moves|
        invariant 0 <= i <= |moves| && Valid() && Grows(old(system), system)
      {
        if Allowed(system, moves[i]) {
          CoherentStep(system, moves[i]);
          GrowsStep(system, moves[i]);
          GrowsTransitive(old(system), system, Take(system, moves[i]));
          system := Take(system, moves[i]);
        }
        i := i + 1;
      }
    }
  }

  // ---------------------------------------------------------------- reading the stream

  datatype Reading = Reading(observations: seq<Event>, scopes: set<string>, gone: set<nat>)

  /** A slot as it was when read, some time between `before` and `after`. */
  predicate Between(before: Slot, view: Slot, after: Slot) {
    && view.source == before.source == after.source && view.seen == before.seen == after.seen
    && (after.kept ==> view.kept) && (view.kept ==> before.kept)
  }

  predicate Views(before: seq<Slot>, view: seq<Slot>, after: seq<Slot>, lo: nat) {
    && lo + |view| <= |before| <= |after|
    && forall i :: 0 <= i < |view| ==> Between(before[lo + i], view[i], after[lo + i])
  }

  predicate ReadingFits(view: seq<Slot>, lo: nat, filter: Filter, r: Reading) {
    && r.observations == Observations(view, filter)
    && r.scopes == RunScopes(r.observations, filter)
    && (forall i :: 0 <= i < |view| ==> (lo + i in r.gone <==> !view[i].kept))
    && (forall n :: n in r.gone ==> lo <= n < lo + |view|)
    && (forall i :: 0 <= i < |view| && view[i].kept ==> view[i].seen.Some?)
  }

  /** One GetMsg: what becomes of the reading so far. */
  method ReadSlot(slot: Slot, number: nat, filter: Filter, r: Reading, ghost view: seq<Slot>) returns (r': Option<Reading>)
    requires number >= 1 + |view| && ReadingFits(view, number - 1 - |view|, filter, r)
    ensures r'.None? <==> slot.kept && slot.seen.None?
    ensures r'.Some? ==> ReadingFits(view + [slot], number - 1 - |view|, filter, r'.value)
  {
    assert (view + [slot])[..|view|] == view;
    if !slot.kept {
      return Some(r.(gone := r.gone + {number - 1}));
    }
    if slot.seen.None? {
      return None;
    }
    var ev := slot.seen.value;
    if filter.scope != "" && Scope(ev) != filter.scope {
      return Some(r);
    }
    var scopes := r.scopes;
    if filter.run == "" || ev.runId == filter.run {
      scopes := scopes + {Scope(ev)};
    }
    r' := Some(Reading(r.observations + [ev], scopes, r.gone));
  }

  lemma ViewsExtend(before: seq<Slot>, view: seq<Slot>, mid: seq<Slot>, after: seq<Slot>, lo: nat)
    requires Views(before, view, mid, lo) && LogGrows(before, mid) && LogGrows(mid, after)
    requires lo + |view| < |before|
    ensures Views(before, view + [after[lo + |view|]], after, lo)
  {
  }

  /** One more request: time passes, then message number lo + |view| + 1 is read. */
  method ReadNext(site: Site, lo: nat, filter: Filter, r: Reading, ghost before: seq<Slot>, ghost view: seq<Slot>, i: nat)
    returns (r': Option<Reading>, ghost view': seq<Slot>)
    requires site.Valid() && i == lo + |view| < |before|
    requires Views(before, view, site.system.log, lo) && LogGrows(before, site.system.log) && ReadingFits(view, lo, filter, r)
    modifies site
    ensures site.Valid() && Grows(old(site.system), site.system)
    ensures r'.Some? ==>
      && |view'| == |view| + 1 && Views(before, view', site.system.log, lo) && ReadingFits(view', lo, filter, r'.value)
  {
    ghost var mid := site.system.log;
    site.Drift();
    var slot := site.system.log[i];
    ViewsExtend(before, view, mid, site.system.log, lo);
    r' := ReadSlot(slot, i + 1, filter, r, view);
    view' := view + [slot];
  }

  /** Reads sequence numbers lo + 1 up to hi; an unreadable message ends the report. */
  method ReadStream(site: Site, lo: nat, hi: nat, filter: Filter) returns (r: Option<Reading>, ghost view: seq<Slot>)
    requires site.Valid() && lo <= hi <= |site.system.log|
    modifies site
    ensures site.Valid() && Grows(old(site.system), site.system)
    ensures r.Some? ==>
      && |view| == hi - lo && Views(old(site.system.log), view, site.system.log, lo)
      && ReadingFits(view, lo, filter, r.value)
  {
    view := [];
    var reading := Reading([], {}, {});
    var i := lo;
    while i < hi
      invariant lo <= i <= hi && |view| == i - lo
      invariant site.Valid() && Grows(old(site.system), site.system)
      invariant Views(old(site.system.log), view, site.system.log, lo) && ReadingFits(view, lo, filter, reading)
    {
      ghost var mid := site.system;
      var next;
      next, view := ReadNext(site, lo, filter, reading, old(site.system.log), view, i);
      GrowsTransitive(old(site.system), mid, site.system);
      if next.None? {
        return None, view;
      }
      reading := next.value;
      i := i + 1;
    }
    r := Some(reading);
  }

  // ---------------------------------------------------------------- planning

  lemma ChosenNext(evs: seq<Event>, scopes: set<string>, i: nat)
    requires i < |evs|
    ensures Chosen(evs[..i + 1], scopes) == Chosen(evs[..i], scopes) + (if Scope(evs[i]) in scopes then [evs[i]] else [])
  {
    assert evs[..i + 1][..i] == evs[..i];
  }

  lemma PlannedNext(tools: seq<Contract>, evs: seq<Event>, ev: Event)
    ensures Planned(tools, evs + [ev]) == Add(Planned(tools, evs), tools, ev)
  {
    assert (evs + [ev])[..|evs|] == evs;
  }

  /** Feed the planner the observations in the selected scopes, and ask it what to expect. */
  method Plan(tools: seq<Contract>, observations: seq<Event>, scopes: set<string>)
    returns (exps: map<ItemKey, Expectation>, matched: nat, unknown: set<string>)
    ensures var chosen := Chosen(observations, scopes); var plan := Planned(tools, chosen);
      exps == Expectations(plan) && matched == |chosen| && unknown == plan.unknown
  {
    var planner := new Planner(tools);
    matched := 0;
    var i := 0;
    while i < |observations|
      invariant 0 <= i <= |observations| && fresh(planner) && planner.tools == tools
      invariant planner.State() == Planned(tools, Chosen(observations[..i], scopes))
      invariant matched == |Chosen(observations[..i], scopes)|
    {
      ghost var before := Chosen(observations[..i], scopes);
      ChosenNext(observations, scopes, i);
      if Scope(observations[i]) in scopes {
        PlannedNext(tools, before, observations[i]);
        matched := matched + 1;
        ghost var was := planner.State();
        planner.Observe(observations[i]);
        assert planner.State() == Add(was, tools, observations[i]);
      } else {
        assert before + [] == before;
      }
      i := i + 1;
    }
    assert observations[..i] == observations;
    unknown := planner.unknown;
    exps := planner.Report();
  }

  // ---------------------------------------------------------------- looking at the work

  function Count(counts: map<State, nat>, state: State): nat {
    if state in counts then counts[state] else 0
  }

  function InState(items: map<ItemKey, Item>, state: State): set<ItemKey> {
    set key | key in items && items[key].state == state
  }

  /** The counts say how many items are in each state. */
  ghost predicate Tallied(items: map<ItemKey, Item>, counts: map<State, nat>) {
    forall state :: Count(counts, state) == |InState(items, state)|
  }

  lemma InStateOne(items: map<ItemKey, Item>, key: ItemKey, item: Item, state: State)
    requires key !in items
    ensures InState(items[key := item], state) == InState(items, state) + (if state == item.state then {key} else {})
    ensures key !in InState(items, state)
  {
  }

  lemma TallyOne(items: map<ItemKey, Item>, counts: map<State, nat>, key: ItemKey, item: Item)
    requires Tallied(items, counts) && key !in items
    ensures Tallied(items[key := item], counts[item.state := Count(counts, item.state) + 1])
  {
    var items', counts' := items[key := item], counts[item.state := Count(counts, item.state) + 1];
    forall state ensures Count(counts', state) == |InState(items', state)| {
      InStateOne(items, key, item, state);
      assert Count(counts, state) == |InState(items, state)|;
    }
  }

  /** Read each expected task's record; the reads are spread over time. */
  method Inspect(site: Site, exps: map<ItemKey, Expectation>, at: nat)
    returns (items: map<ItemKey, Item>, counts: map<State, nat>)
    requires site.Valid()
    modifies site
    ensures site.Valid() && Grows(old(site.system), site.system)
    ensures items.Keys == exps.Keys && Tallied(items, counts)
    ensures site.system.seqNo == old(site.system.seqNo) ==>
      forall key :: key in items ==> items[key] == ItemOf(exps[key], RecordFor(site.system, key), at)
  {
    items, counts := map[], map[];
    var rest := exps.Keys;
    while rest != {}
      invariant rest <= exps.Keys && items.Keys == exps.Keys - rest && Tallied(items, counts)
      invariant site.Valid() && Grows(old(site.system), site.system)
      invariant site.system.seqNo == old(site.system.seqNo) ==>
        forall key :: key in items ==> items[key] == ItemOf(exps[key], RecordFor(site.system, key), at)
      decreases rest
    {
      var key :| key in rest;
      rest := rest - {key};
      ghost var mid := site.system;
      site.Drift();
      GrowsTransitive(old(site.system), mid, site.system);
      assert site.system.seqNo == old(site.system.seqNo) ==> forall k :: RecordFor(site.system, k) == RecordFor(mid, k);
      var item := ItemOf(exps[key], RecordFor(site.system, key), at);
      TallyOne(items, counts, key, item);
      items, counts := items[key := item], counts[item.state := Count(counts, item.state) + 1];
    }
  }

  // ---------------------------------------------------------------- the reads, one after the other

  datatype Staff = Staff(tools: seq<Contract>, inventory: Option<Inventory>, last: nat)

  /** What was read of the registry holds whenever its last revision is still the same. */
  ghost predicate StaffFits(s: System, staff: Staff) {
    s.registry.last == staff.last ==> ToolsOf(s.registry, staff.tools) && staff.inventory == s.registry.inventory
  }

  lemma StaffStays(s: System, s': System, staff: Staff)
    requires StaffFits(s, staff) && Grows(s, s') && staff.last <= s.registry.last
    ensures StaffFits(s', staff)
  {
  }

  method ReadRegistry(site: Site) returns (r: Option<Staff>)
    requires site.Valid()
    modifies site
    ensures site.Valid() && Grows(old(site.system), site.system)
    ensures r.Some? ==> r.value.last <= site.system.registry.last && StaffFits(site.system, r.value)
  {
    var last := site.system.registry.last;
    ghost var s0 := site.system;
    site.Drift();
    var tools := Registrations(site.system.registry);
    if tools.None? {
      return None;
    }
    ghost var s1 := site.system;
    site.Drift();
    GrowsTransitive(s0, s1, site.system);
    var inventory := site.system.registry.inventory;
    if inventory.Some? && inventory.value.version != DEFINITION_VERSION {
      return None;
    }
    r := Some(Staff(tools.value, inventory, last));
  }

  lemma {:induction false} ObservationsDrop(log: seq<Slot>, lo: nat, filter: Filter)
    requires lo <= |log| && forall i :: 0 <= i < lo ==> !log[i].kept
    ensures Observations(log[lo..], filter) == Observations(log, filter)
    decreases |log|
  {
    if log != [] {
      var n := |log| - 1;
      if lo == |log| {
        ObservationsDrop(log[..n], n, filter);
        assert log[..n][n..] == [];
      } else {
        ObservationsDrop(log[..n], lo, filter);
        assert log[lo..][..n - lo] == log[..n][lo..];
      }
    }
  }

  lemma SteadyGoneAt(log: seq<Slot>, view: seq<Slot>, lo: nat, filter: Filter, r: Reading, n: nat)
    requires lo == Leading(log) && lo <= n < |log| && view == log[lo..] && ReadingFits(view, lo, filter, r)
    ensures n in r.gone <==> n in Gaps(log)
  {
    assert n in r.gone <==> !view[n - lo].kept;
  }

  lemma SteadyGone(log: seq<Slot>, view: seq<Slot>, filter: Filter, r: Reading)
    requires var lo := Leading(log); lo <= |log| && view == log[lo..] && ReadingFits(view, lo, filter, r)
    ensures r.gone == Gaps(log)
  {
    var lo := Leading(log);
    forall n ensures n in r.gone <==> n in Gaps(log) {
      if lo <= n < |log| { SteadyGoneAt(log, view, lo, filter, r, n); }
    }
  }

  lemma SteadySlots(log: seq<Slot>, view: seq<Slot>, lo: nat)
    requires lo <= |log| && Views(log, view, log, lo) && |view| == |log| - lo
    ensures view == log[lo..]
  {
    forall i | 0 <= i < |view| ensures view[i] == log[lo..][i] { assert Between(log[lo + i], view[i], log[lo + i]); }
  }

  lemma SteadySeen(log: seq<Slot>, view: seq<Slot>, lo: nat)
    requires lo <= |log| && view == log[lo..] && forall i :: 0 <= i < |view| && view[i].kept ==> view[i].seen.Some?
    requires forall i :: 0 <= i < lo ==> !log[i].kept
    ensures forall i :: 0 <= i < |log| && log[i].kept ==> log[i].seen.Some?
  {
    forall i | 0 <= i < |log| && log[i].kept ensures log[i].seen.Some? {
      assert view[i - lo] == log[i];
    }
  }

  /** Reading a stream that does not change reads it as it is. */
  lemma SteadyView(log: seq<Slot>, view: seq<Slot>, filter: Filter, r: Reading)
    requires var lo := Leading(log); lo <= |log| && Views(log, view, log, lo) && |view| == |log| - lo && ReadingFits(view, lo, filter, r)
    ensures r.observations == Observations(log, filter) && r.scopes == RunScopes(Observations(log, filter), filter)
    ensures r.gone == Gaps(log)
    ensures forall i :: 0 <= i < |log| && log[i].kept ==> log[i].seen.Some?
  {
    RemovedBound(log);
    SteadySlots(log, view, Leading(log));
    SteadyObservations(log, view, Leading(log), filter);
    SteadyGone(log, view, filter, r);
    SteadySeen(log, view, Leading(log));
  }

  lemma SteadyObservations(log: seq<Slot>, view: seq<Slot>, lo: nat, filter: Filter)
    requires lo <= |log| && view == log[lo..] && forall i :: 0 <= i < lo ==> !log[i].kept
    ensures Observations(view, filter) == Observations(log, filter)
  {
    ObservationsDrop(log, lo, filter);
  }

  /** Over a period in which the counters did not move, every reading is a reading of the last state. */
  lemma SteadyLogs(s0: System, s1: System, s2: System, s3: System)
    requires Grows(s0, s1) && Grows(s1, s2) && Grows(s2, s3) && InfoOf(s3.log) == InfoOf(s0.log)
    ensures s0.log == s3.log && s1.log == s3.log && s2.log == s3.log
  {
    GrowsTransitive(s0, s1, s2);
    GrowsTransitive(s1, s2, s3);
    StableMeansUnchanged(s0, s1, s3);
    StableMeansUnchanged(s0, s2, s3);
  }

  /** The report as far as it can be made from what was read. */
  function Draft(filter: Filter, at: nat, start: Info, staff: Staff, reading: Reading, matched: nat, unknown: set<string>,
                 items: map<ItemKey, Item>, counts: map<State, nat>): Report {
    Report(filter, at, start.last, staff.last, staff.inventory, matched, reading.scopes, false, false, counts,
           RegistryWarnings(staff.tools, staff.inventory) + HistoryWarnings(start) + ReadWarnings(reading.gone, matched, unknown), items)
  }

  lemma DraftFaithful(s: System, view: seq<Slot>, staff: Staff, reading: Reading, r: Report)
    requires var lo := Leading(s.log); lo <= |s.log| && Views(s.log, view, s.log, lo) && |view| == |s.log| - lo && ReadingFits(view, lo, r.filter, reading)
    requires StaffFits(s, staff) && s.registry.last == staff.last
    requires var plan := Planned(staff.tools, Chosen(reading.observations, reading.scopes));
      && r == Draft(r.filter, r.at, InfoOf(s.log), staff, reading, |Chosen(reading.observations, reading.scopes)|, plan.unknown, r.items, r.counts)
      && r.items.Keys == Expectations(plan).Keys
      && forall key :: key in r.items ==> r.items[key] == ItemOf(Expectations(plan)[key], RecordFor(s, key), r.at)
    ensures Faithful(s, staff.tools, r)
  {
    SteadyView(s.log, view, r.filter, reading);
    assert Chosen(reading.observations, reading.scopes) == Selection(s.log, r.filter);
  }

  /** The messages, read between s1 and s2, and the plan made from them. */
  ghost predicate PlanFits(s1: System, s2: System, view: seq<Slot>, lo: nat, hi: nat, filter: Filter, reading: Reading) {
    lo <= hi && |view| == hi - lo && Views(s1.log, view, s2.log, lo) && ReadingFits(view, lo, filter, reading)
  }

  /** The items were looked up between s2 and s3. */
  ghost predicate ItemsFit(s2: System, s3: System, exps: map<ItemKey, Expectation>, at: nat, items: map<ItemKey, Item>) {
    && items.Keys == exps.Keys
    && (s3.seqNo == s2.seqNo ==> forall key :: key in items ==> items[key] == ItemOf(exps[key], RecordFor(s3, key), at))
  }

  lemma SteadyDraft(s0: System, s1: System, s2: System, s3: System, view: seq<Slot>, staff: Staff, reading: Reading, r: Report)
    requires Grows(s0, s1) && Grows(s1, s2) && Grows(s2, s3) && StaffFits(s0, staff) && staff.last <= s0.registry.last
    requires Steady(s3, InfoOf(s0.log), s1.seqNo, staff.last)
    requires PlanFits(s1, s2, view, Leading(s0.log), |s0.log|, r.filter, reading)
    requires var chosen := Chosen(reading.observations, reading.scopes); var plan := Planned(staff.tools, chosen);
      && ItemsFit(s2, s3, Expectations(plan), r.at, r.items)
      && r == Draft(r.filter, r.at, InfoOf(s0.log), staff, reading, |chosen|, plan.unknown, r.items, r.counts)
    ensures Faithful(s3, staff.tools, r)
  {
    SteadyLogs(s0, s1, s2, s3);
    GrowsTransitive(s0, s1, s2);
    GrowsTransitive(s0, s2, s3);
    StaffStays(s0, s3, staff);
    DraftFaithful(s3, view, staff, reading, r);
  }

  /** Everything but the closing comparison. If the counters have not moved, the report is faithful to
      the state they were read from. */
  method Read(site: Site, filter: Filter, at: nat, staff: Staff) returns (r: Option<Report>, start: Info, workStart: nat)
    requires site.Valid() && staff.last <= site.system.registry.last && StaffFits(site.system, staff)
    modifies site
    ensures site.Valid() && Grows(old(site.system), site.system) && workStart <= site.system.seqNo
    ensures r.Some? ==> r.value.filter == filter && r.value.registryLast == staff.last
    ensures r.Some? ==> Tallied(r.value.items, r.value.counts) && Changed !in r.value.warnings
    ensures r.Some? && Steady(site.system, start, workStart, staff.last) ==> Faithful(site.system, staff.tools, r.value)
  {
    ghost var s0 := site.system;
    start := InfoOf(site.system.log);
    RemovedBound(site.system.log);
    site.Drift();
    ghost var s1 := site.system;
    workStart := site.system.seqNo;
    var reading;
    ghost var view;
    reading, view := ReadStream(site, start.first - 1, start.last, filter);
    ghost var s2 := site.system;
    GrowsTransitive(s0, s1, s2);
    if reading.None? {
      return None, start, workStart;
    }
    var report := Compose(site, filter, at, start, staff, reading.value, workStart, s0, s1, view);
    GrowsTransitive(s0, s2, site.system);
    r := Some(report);
  }

  /** The report on what was read of registry and stream. */
  method Compose(site: Site, filter: Filter, at: nat, start: Info, staff: Staff, reading: Reading, workStart: nat,
                 ghost s0: System, ghost s1: System, ghost view: seq<Slot>) returns (report: Report)
    requires site.Valid() && Grows(s0, s1) && Grows(s1, site.system) && StaffFits(s0, staff) && staff.last <= s0.registry.last
    requires start == InfoOf(s0.log) && workStart == s1.seqNo
    requires PlanFits(s1, site.system, view, Leading(s0.log), |s0.log|, filter, reading)
    modifies site
    ensures site.Valid() && Grows(old(site.system), site.system)
    ensures report.filter == filter && report.registryLast == staff.last && Tallied(report.items, report.counts) && Changed !in report.warnings
    ensures Steady(site.system, start, workStart, staff.last) ==> Faithful(site.system, staff.tools, report)
  {
    ghost var s2 := site.system;
    report := ReadWork(site, filter, at, start, staff, reading);
    if Steady(site.system, start, workStart, staff.last) {
      SteadyDraft(s0, s1, s2, site.system, view, staff, reading, report);
    }
  }

  lemma NotChanged(staff: Staff, start: Info, gone: set<nat>, matched: nat, unknown: set<string>)
    ensures Changed !in RegistryWarnings(staff.tools, staff.inventory) + HistoryWarnings(start) + ReadWarnings(gone, matched, unknown)
  {
  }

  /** Plan, and look at every expected task. */
  method ReadWork(site: Site, filter: Filter, at: nat, start: Info, staff: Staff, reading: Reading) returns (r: Report)
    requires site.Valid()
    modifies site
    ensures site.Valid() && Grows(old(site.system), site.system)
    ensures Tallied(r.items, r.counts) && Changed !in r.warnings
    ensures var chosen := Chosen(reading.observations, reading.scopes); var plan := Planned(staff.tools, chosen);
      && ItemsFit(old(site.system), site.system, Expectations(plan), at, r.items)
      && r == Draft(filter, at, start, staff, reading, |chosen|, plan.unknown, r.items, r.counts)
  {
    var exps, matched, unknown := Plan(staff.tools, reading.observations, reading.scopes);
    var items, counts := Inspect(site, exps, at);
    NotChanged(staff, start, reading.gone, matched, unknown);
    r := Draft(filter, at, start, staff, reading, matched, unknown, items, counts);
  }

  /** The counters are still what they were. */
  ghost predicate Steady(s: System, start: Info, work: nat, registry: nat) {
    InfoOf(s.log) == start && s.seqNo == work && s.registry.last == registry
  }

  // ---------------------------------------------------------------- Snapshot

  lemma SameSize<T>(a: set<T>, b: set<T>)
    requires a <= b && |a| == |b|
    ensures a == b
  {
    if a != b {
      var x :| x in b && x !in a;
      assert a + {x} <= b;
      Smaller(a + {x}, b);
    }
  }

  lemma {:induction false} Smaller<T>(a: set<T>, b: set<T>)
    requires a <= b
    ensures |a| <= |b|
    decreases |a|
  {
    if a != {} {
      var x :| x in a;
      Smaller(a - {x}, b - {x});
    }
  }

  /** Counting completed items against all items is asking whether all are completed. */
  lemma AllCompleted(items: map<ItemKey, Item>, counts: map<State, nat>)
    requires Tallied(items, counts)
    ensures Count(counts, Recorded(Completed)) == |items| <==> forall key :: key in items ==> items[key].state == Recorded(Completed)
  {
    var done := InState(items, Recorded(Completed));
    assert Count(counts, Recorded(Completed)) == |done|;
    assert |items| == |items.Keys|;
    if |done| == |items.Keys| {
      SameSize(done, items.Keys);
      assert forall key :: key in items ==> key in done;
    } else {
      assert done != items.Keys;
    }
  }

  /** The closing comparison. */
  method Conclude(site: Site, report: Report, start: Info, workStart: nat) returns (r: Report)
    requires site.Valid() && workStart <= site.system.seqNo && report.registryLast <= site.system.registry.last
    requires Tallied(report.items, report.counts) && Changed !in report.warnings
    modifies site
    ensures site.Valid() && Grows(old(site.system), site.system)
    ensures r.stable ==> Steady(old(site.system), start, workStart, report.registryLast)
    ensures r == report.(stable := r.stable, complete := r.complete, warnings := report.warnings + if r.stable then {} else {Changed})
    ensures r.complete <==>
      && r.stable && r.warnings == {} && r.items != map[]
      && forall key :: key in r.items ==> r.items[key].state == Recorded(Completed)
  {
    var end := InfoOf(site.system.log);
    ghost var s0 := site.system;
    site.Drift();
    var workEnd := site.system.seqNo;
    ghost var s1 := site.system;
    site.Drift();
    GrowsTransitive(s0, s1, site.system);
    var registryEnd := site.system.registry.last;
    var stable := start == end && workStart == workEnd && report.registryLast == registryEnd;
    var warnings := report.warnings + if stable then {} else {Changed};
    AllCompleted(report.items, report.counts);
    var complete := stable && |warnings| == 0 && |report.items| > 0 && Count(report.counts, Recorded(Completed)) == |report.items|;
    r := report.(stable := stable, warnings := warnings, complete := complete);
  }

  lemma FaithfulFlags(s: System, tools: seq<Contract>, r: Report, r': Report)
    requires Faithful(s, tools, r) && r' == r.(stable := true, complete := r'.complete)
    ensures Faithful(s, tools, r')
  {
  }

  lemma Concluded(s: System, staff: Staff, start: Info, workStart: nat, report: Report, r: Report)
    requires Steady(s, start, workStart, staff.last) ==> Faithful(s, staff.tools, report)
    requires r.stable ==> Steady(s, start, workStart, staff.last)
    requires r == report.(stable := r.stable, complete := r.complete, warnings := report.warnings + if r.stable then {} else {Changed})
    ensures r.stable ==> Faithful(s, staff.tools, r)
  {
    if r.stable {
      assert r.warnings == report.warnings;
      FaithfulFlags(s, staff.tools, report, r);
    }
  }

  /** Snapshot once the registry has been read. */
  method Survey(site: Site, filter: Filter, at: nat, staff: Staff) returns (r: Option<Report>, ghost boundary: System)
    requires site.Valid() && staff.last <= site.system.registry.last && StaffFits(site.system, staff)
    modifies site
    ensures site.Valid() && Coherent(boundary) && Grows(old(site.system), boundary) && Grows(boundary, site.system)
    ensures r.Some? && r.value.stable ==> Faithful(boundary, staff.tools, r.value)
    ensures r.Some? ==> r.value.filter == filter && (r.value.complete <==> Certified(r.value))
  {
    var report, start, workStart := Read(site, filter, at, staff);
    boundary := site.system;
    if report.None? {
      return None, boundary;
    }
    var final := Conclude(site, report.value, start, workStart);
    Concluded(boundary, staff, start, workStart, report.value, final);
    r := Some(final);
  }

  /** Snapshot. `boundary` is the instant the report speaks of: the deployment goes on before and after. */
  method Snapshot(site: Site, filter: Filter) returns (r: Option<Report>, ghost tools: seq<Contract>, ghost boundary: System)
    requires site.Valid()
    modifies site
    ensures site.Valid() && Coherent(boundary) && Grows(old(site.system), boundary) && Grows(boundary, site.system)
    ensures r.Some? && r.value.stable ==> Faithful(boundary, tools, r.value)
    ensures r.Some? ==> r.value.filter == filter && (filter.run != "" || filter.scope != "")
    ensures r.Some? ==>
      (r.value.complete <==>
        && r.value.stable && r.value.warnings == {} && r.value.items != map[]
        && forall key :: key in r.value.items ==> r.value.items[key].state == Recorded(Completed))
    ensures r.Some? && r.value.stable ==> Tells(boundary, tools, r.value)
    ensures r.Some? && r.value.complete ==> Closed(boundary, filter) && NothingLost(boundary) && Deployed(boundary.registry)
  {
    tools, boundary := [], site.system;
    var at := site.system.now;
    if filter.run == "" && filter.scope == "" {
      return None, tools, boundary;
    }
    var staff := ReadRegistry(site);
    if staff.None? {
      return None, tools, site.system;
    }
    tools := staff.value.tools;
    ghost var s0 := site.system;
    r, boundary := Survey(site, filter, at, staff.value);
    GrowsTransitive(old(site.system), s0, boundary);
    if r.Some? && r.value.stable {
      FaithfulTells(boundary, tools, r.value);
    }
    if r.Some? && r.value.complete {
      CompleteProves(boundary, tools, r.value);
    }
  }
}
