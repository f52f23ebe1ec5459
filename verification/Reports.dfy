/** What a report says about one state of the deployment: its warnings, its items, and what "complete"
    proves (internal/coverage/coverage.go). */
module Reports {
  import opened Wrappers
  import opened Events
  import opened Work
  import opened Text
  import opened Registry
  import opened Plans
  import opened PlanTheorems
  import opened Cluster
  import opened Coverage

  // ---------------------------------------------------------------- warnings

  function RegistryWarnings(tools: seq<Contract>, inventory: Option<Inventory>): set<Warning> {
    (if tools == [] then {NoWorkers} else {}) +
    (if inventory.None? then {InventoryMissing}
     else (if inventory.value.ready then {} else {InventoryNotReady}) +
          set name | name in inventory.value.workers && !Names(tools, name) :: NotRegistered(name))
  }

  function HistoryWarnings(info: Info): set<Warning> {
    if info.first > 1 || info.last + 1 - info.first > info.msgs then {HistoryRemoved} else {}
  }

  function ReadWarnings(gone: set<nat>, matched: nat, unknown: set<string>): set<Warning> {
    (set n | n in gone :: SequenceGone(n + 1)) +
    (if matched == 0 then {NothingMatches} else {}) +
    (set name | name in unknown :: UnknownWorker(name))
  }

  // ---------------------------------------------------------------- what a stable report says

  ghost predicate ToolsOf(shelf: Shelf, tools: seq<Contract>) {
    exists names: seq<string> ::
      Ascending(names) && (forall n :: n in names <==> n in shelf.workers) && tools == ReadAll(shelf, names)
  }

  /** Positions the reader asks for in vain: removed, but not at the beginning. */
  function Gaps(log: seq<Slot>): set<nat> {
    set i | Leading(log) <= i < |log| && !log[i].kept
  }

  /** A stable report is a function of one state of the deployment. */
  ghost predicate Faithful(s: System, tools: seq<Contract>, r: Report) {
    var selected := Selection(s.log, r.filter);
    var plan := Planned(tools, selected);
    && ToolsOf(s.registry, tools) && r.inventory == s.registry.inventory && r.registryLast == s.registry.last
    && r.through == |s.log| && (forall i :: 0 <= i < |s.log| && s.log[i].kept ==> s.log[i].seen.Some?)
    && r.matched == |selected|
    && r.sharedScopes == RunScopes(Observations(s.log, r.filter), r.filter)
    && r.items.Keys == Expectations(plan).Keys
    && (forall key :: key in r.items ==> r.items[key] == ItemOf(Expectations(plan)[key], RecordFor(s, key), r.at))
    && r.warnings == RegistryWarnings(tools, r.inventory) + HistoryWarnings(InfoOf(s.log))
                     + ReadWarnings(Gaps(s.log), |selected|, plan.unknown)
  }

  ghost predicate Certified(r: Report) {
    && r.stable && r.warnings == {} && r.items != map[]
    && forall key :: key in r.items ==> r.items[key].state == Recorded(Completed)
  }

  // ---------------------------------------------------------------- what the warnings mean

  /** Every worker of a complete inventory has registered. */
  ghost predicate Deployed(shelf: Shelf) {
    && shelf.workers != map[] && shelf.inventory.Some? && shelf.inventory.value.ready
    && forall name :: name in shelf.inventory.value.workers ==> name in shelf.workers
  }

  /** Message i has been removed, but not all before it. */
  ghost predicate Gap(log: seq<Slot>, i: int) {
    0 <= i < |log| && !log[i].kept && exists j :: 0 <= j < i && log[j].kept
  }

  /** Some selected observation names this worker in its allow list. */
  ghost predicate Wished(evs: seq<Event>, name: string) {
    exists ev :: ev in evs && name in Gates.SplitMetaList(if "allow" in ev.meta then ev.meta["allow"] else "")
  }

  /** When a stable report carries which warning: what is wrong with the registry, the history and the
      selection of the instant it speaks of. */
  ghost predicate Warns(s: System, filter: Filter, x: Warning) {
    match x
    case NoWorkers => s.registry.workers == map[]
    case InventoryMissing => s.registry.inventory.None?
    case InventoryNotReady => s.registry.inventory.Some? && !s.registry.inventory.value.ready
    case NotRegistered(name) =>
      s.registry.inventory.Some? && name in s.registry.inventory.value.workers && name !in s.registry.workers
    case HistoryRemoved => exists i :: 0 <= i < |s.log| && !s.log[i].kept
    case SequenceGone(number) => Gap(s.log, number - 1)
    case NothingMatches => Selection(s.log, filter) == []
    case UnknownWorker(name) => Wished(Selection(s.log, filter), name) && name !in s.registry.workers
    case Changed => false
  }

  lemma {:induction false} NoWarningsDeployed(s: System, filter: Filter)
    requires forall x :: !Warns(s, filter, x)
    ensures Deployed(s.registry)
  {
    assert !Warns(s, filter, NoWorkers) && !Warns(s, filter, InventoryMissing) && !Warns(s, filter, InventoryNotReady);
    forall name | name in s.registry.inventory.value.workers ensures name in s.registry.workers {
      assert !Warns(s, filter, NotRegistered(name));
    }
  }

  lemma {:induction false} ToolNames(shelf: Shelf, tools: seq<Contract>)
    requires Orderly(shelf) && ToolsOf(shelf, tools)
    ensures forall name :: Names(tools, name) <==> name in shelf.workers
    ensures tools == [] <==> shelf.workers == map[]
  {
    var names: seq<string> :| Ascending(names) && (forall n :: n in names <==> n in shelf.workers) && tools == ReadAll(shelf, names);
    forall name ensures Names(tools, name) <==> name in shelf.workers {
      if Names(tools, name) {
        var t :| t in tools && t.name == name;
        ToolNamed(shelf, names, t);
      }
      if name in shelf.workers { EntryRead(shelf, names, name); }
    }
    if tools == [] { assert forall name :: name !in names; }
    if names != [] { assert names[0] in shelf.workers; }
  }

  lemma {:induction false} CountRemoved(log: seq<Slot>)
    ensures KeptCount(log) < |log| <==> exists i :: 0 <= i < |log| && !log[i].kept
  {
    KeptBound(log);
    if log != [] {
      var n := |log| - 1;
      CountRemoved(log[..n]);
      KeptBound(log[..n]);
      if exists i :: 0 <= i < |log| && !log[i].kept {
        var i :| 0 <= i < |log| && !log[i].kept;
        if i < n { assert !log[..n][i].kept; }
      }
    }
  }

  lemma {:induction false} LeadingKept(log: seq<Slot>)
    ensures Leading(log) < |log| ==> log[Leading(log)].kept
  {
    if log != [] && !log[0].kept { LeadingKept(log[1..]); }
  }

  lemma {:induction false} GapsAre(log: seq<Slot>, i: int)
    ensures i in Gaps(log) <==> Gap(log, i)
  {
    RemovedBound(log);
    LeadingKept(log);
    if i in Gaps(log) { assert log[Leading(log)].kept; }
  }

  lemma {:induction false} HistoryMeaning(log: seq<Slot>)
    ensures HistoryRemoved in HistoryWarnings(InfoOf(log)) <==> exists i :: 0 <= i < |log| && !log[i].kept
  {
    RemovedBound(log);
    CountRemoved(log);
    KeptBound(log);
    if Leading(log) > 0 { assert !log[0].kept; }
  }

  lemma {:induction false} RegistryWarningIff(tools: seq<Contract>, inventory: Option<Inventory>, x: Warning)
    ensures x in RegistryWarnings(tools, inventory) <==>
      match x
      case NoWorkers => tools == []
      case InventoryMissing => inventory.None?
      case InventoryNotReady => inventory.Some? && !inventory.value.ready
      case NotRegistered(name) => inventory.Some? && name in inventory.value.workers && !Names(tools, name)
      case _ => false
  {
  }

  lemma {:induction false} ReadWarningIff(gone: set<nat>, matched: nat, unknown: set<string>, x: Warning)
    ensures x in ReadWarnings(gone, matched, unknown) <==>
      match x
      case SequenceGone(number) => number - 1 in gone
      case NothingMatches => matched == 0
      case UnknownWorker(name) => name in unknown
      case _ => false
  {
    if x.SequenceGone? && x.number - 1 in gone { assert SequenceGone((x.number - 1) + 1) == x; }
  }

  lemma {:induction false} RegistryMeaning(s: System, tools: seq<Contract>, filter: Filter, x: Warning)
    requires Orderly(s.registry) && ToolsOf(s.registry, tools)
    ensures x in RegistryWarnings(tools, s.registry.inventory) <==>
      (x.NoWorkers? || x.InventoryMissing? || x.InventoryNotReady? || x.NotRegistered?) && Warns(s, filter, x)
  {
    ToolNames(s.registry, tools);
    RegistryWarningIff(tools, s.registry.inventory, x);
  }

  lemma {:induction false} ReadMeaning(s: System, tools: seq<Contract>, filter: Filter, x: Warning)
    requires Orderly(s.registry) && ToolsOf(s.registry, tools)
    ensures var evs := Selection(s.log, filter);
      x in ReadWarnings(Gaps(s.log), |evs|, Planned(tools, evs).unknown) <==>
      (x.SequenceGone? || x.NothingMatches? || x.UnknownWorker?) && Warns(s, filter, x)
  {
    var evs := Selection(s.log, filter);
    ToolNames(s.registry, tools);
    ReadWarningIff(Gaps(s.log), |evs|, Planned(tools, evs).unknown, x);
    if x.SequenceGone? { GapsAre(s.log, x.number - 1); }
    if x.UnknownWorker? { UnknownExactly(tools, evs, x.name); }
  }

  lemma {:induction false} HistoryPart(s: System, filter: Filter, x: Warning)
    ensures x in HistoryWarnings(InfoOf(s.log)) <==> x.HistoryRemoved? && Warns(s, filter, x)
  {
    HistoryMeaning(s.log);
  }

  /** When a faithful report carries which warning. */
  lemma {:induction false} WarningsMeaning(s: System, tools: seq<Contract>, r: Report, x: Warning)
    requires Orderly(s.registry) && Faithful(s, tools, r)
    ensures x in r.warnings <==> Warns(s, r.filter, x)
  {
    RegistryMeaning(s, tools, r.filter, x);
    HistoryPart(s, r.filter, x);
    ReadMeaning(s, tools, r.filter, x);
  }

  // ---------------------------------------------------------------- what a complete report proves

  /** The tools of an orderly registry: one per name, and all of them. */
  lemma {:induction false} ToolsAre(shelf: Shelf, tools: seq<Contract>)
    requires Orderly(shelf) && ToolsOf(shelf, tools)
    ensures OneEach(tools)
    ensures forall n :: n in shelf.workers ==> ReadEntry(shelf, n) in tools
  {
    var names: seq<string> :| Ascending(names) && (forall n :: n in names <==> n in shelf.workers) && tools == ReadAll(shelf, names);
    forall t, u | t in tools && u in tools && t.name == u.name ensures t == u {
      ToolNamed(shelf, names, t);
      ToolNamed(shelf, names, u);
    }
    forall n | n in shelf.workers ensures ReadEntry(shelf, n) in tools {
      EntryRead(shelf, names, n);
    }
  }

  lemma {:induction false} EntryRead(shelf: Shelf, names: seq<string>, n: string)
    requires (forall n :: n in names ==> n in shelf.workers) && n in names
    ensures ReadEntry(shelf, n) in ReadAll(shelf, names)
  {
    var i :| 0 <= i < |names| && names[i] == n;
    assert ReadAll(shelf, names)[i] == ReadEntry(shelf, n);
  }

  lemma {:induction false} ToolNamed(shelf: Shelf, names: seq<string>, t: Contract)
    requires Orderly(shelf) && (forall n :: n in names ==> n in shelf.workers) && t in ReadAll(shelf, names)
    ensures t.name in shelf.workers && t == ReadEntry(shelf, t.name)
  {
    var i :| 0 <= i < |names| && ReadAll(shelf, names)[i] == t;
    assert names[i] in names;
  }

  lemma {:induction false} ReadyItem(p: Plan, k: WorkKey)
    requires k in p.ready
    ensures Work(k) in Expectations(p) && Expectations(p)[Work(k)] == Ready(p.ready[k])
  {
  }

  lemma {:induction false} CompletedItem(w: Wanted, record: Option<Record>, at: nat)
    requires ItemOf(Ready(w), record, at).state == Recorded(Completed)
    ensures record.Some? && record.value.task.status == Completed && (w.tool.evidence != "" ==> record.value.task.emitted > 0)
  {
  }

  lemma {:induction false} PairDone(s: System, tools: seq<Contract>, r: Report, tool: Contract, ev: Event)
    requires OneEach(tools) && Faithful(s, tools, r) && forall key :: key in r.items ==> r.items[key].state == Recorded(Completed)
    requires tool in tools && ev in Selection(s.log, r.filter) && Eligible(tool, ev)
    ensures Done(s, tool, ev)
  {
    var k := WorkKeyOf(tool, ev);
    var plan := Planned(tools, Selection(s.log, r.filter));
    assert ReadyFor(tool, ev, k);
    ReadyExactly(tools, Selection(s.log, r.filter), k);
    ReadyItem(plan, k);
    assert Work(k) in r.items;
    CompletedItem(plan.ready[k], RecordAt(s, k), r.at);
    assert plan.ready[k].tool.name == tool.name;
  }

  lemma {:induction false} NoWarningsNothingLost(s: System, tools: seq<Contract>, r: Report)
    requires Faithful(s, tools, r) && r.warnings == {}
    ensures NothingLost(s)
  {
    assert HistoryWarnings(InfoOf(s.log)) == {};
    assert HistoryRemoved !in HistoryWarnings(InfoOf(s.log));
    KeptBound(s.log);
  }

  /** The flagship: a faithful report without warnings, all of whose items are completed, means that the
      selected observations are closed under every registered worker. */
  lemma {:induction false} CompleteCloses(s: System, tools: seq<Contract>, r: Report)
    requires Coherent(s) && Faithful(s, tools, r) && r.warnings == {}
    requires forall key :: key in r.items ==> r.items[key].state == Recorded(Completed)
    ensures Closed(s, r.filter) && NothingLost(s)
  {
    NoWarningsNothingLost(s, tools, r);
    ToolsAre(s.registry, tools);
    forall tool, ev | Registered(s, tool) && ev in Selection(s.log, r.filter) && Eligible(tool, ev)
      ensures Done(s, tool, ev)
      ensures !tool.observe || OneScopePerId(s.log) ==>
        forall j :: 0 <= j < |FinalBatch(s, WorkKeyOf(tool, ev))| ==> OutputSelected(s, r.filter, WorkKeyOf(tool, ev), j)
    {
      PairDone(s, tools, r, tool, ev);
      if !tool.observe || OneScopePerId(s.log) {
        forall j | 0 <= j < |FinalBatch(s, WorkKeyOf(tool, ev))| ensures OutputSelected(s, r.filter, WorkKeyOf(tool, ev), j) {
          OutputsFollow(s, r.filter, WorkKeyOf(tool, ev), tool, ev, j);
        }
      }
    }
  }

  // ---------------------------------------------------------------- what the items mean

  /** The state of a task's item, from its record and the instant of the report. */
  ghost predicate StateMeans(record: Option<Record>, evidence: string, at: nat, state: State) {
    if record.None? then state == Unclaimed
    else
      var t := record.value.task;
      var empty := t.status == Completed && t.emitted == 0 && evidence != "";
      var abandoned := (t.status == Running || t.status == Publishing) && t.leaseUntil <= at;
      && (state == WithoutEvidence <==> empty)
      && (state == LeaseExpired <==> abandoned)
      && (!empty && !abandoned ==> state == Recorded(t.status))
  }

  /** Work that some selected observation calls for, and how it stands. */
  ghost predicate WorkMeans(s: System, r: Report, k: WorkKey, item: Item) {
    exists tool, ev :: Registered(s, tool) && ev in Selection(s.log, r.filter) && Eligible(tool, ev) && WorkKeyOf(tool, ev) == k
      && item.tool == tool.name && item.eventId == ev.id && item.runId == ev.runId
      && item.input.kind == ev.kind && item.input.value == ev.value && item.input.target == ev.target
      && StateMeans(RecordAt(s, k), tool.evidence, r.at, item.state)
      && (RecordAt(s, k).Some? ==> item.attempts == RecordAt(s, k).value.task.attempts && item.emitted == RecordAt(s, k).value.task.emitted)
  }

  /** A subject that waits for the stated reason. */
  predicate WaitMeans(k: PreKey, plan: Plan, item: Item) {
    && item.tool == k.tool && item.scope == k.scope && item.input.kind == k.kind && item.input.value == k.value && item.input.target.host == k.host
    && k in plan.blocked && item.state == Blocked(plan.blocked[k].why)
  }

  ghost predicate ItemMeans(s: System, tools: seq<Contract>, r: Report, key: ItemKey, item: Item) {
    match key
    case Work(k) => WorkMeans(s, r, k, item)
    case Prerequisite(k) => WaitMeans(k, Planned(tools, Selection(s.log, r.filter)), item)
  }

  lemma {:induction false} ToolsRegistered(s: System, tools: seq<Contract>, t: Contract)
    requires Orderly(s.registry) && ToolsOf(s.registry, tools) && t in tools
    ensures Registered(s, t)
  {
    var names: seq<string> :| Ascending(names) && (forall n :: n in names <==> n in s.registry.workers) && tools == ReadAll(s.registry, names);
    ToolNamed(s.registry, names, t);
  }

  lemma {:induction false} WorkMeaning(s: System, tools: seq<Contract>, r: Report, k: WorkKey)
    requires Orderly(s.registry) && Faithful(s, tools, r) && Work(k) in r.items
    ensures WorkMeans(s, r, k, r.items[Work(k)])
  {
    var evs := Selection(s.log, r.filter);
    var plan := Planned(tools, evs);
    ReadyExactly(tools, evs, k);
    ReasonReports(plan, Work(k));
    var w := plan.ready[k];
    ToolsRegistered(s, tools, w.tool);
    assert r.items[Work(k)] == ItemOf(Ready(w), RecordAt(s, k), r.at);
    StateMeaning(w, RecordAt(s, k), r.at);
  }

  lemma {:induction false} StateMeaning(w: Wanted, record: Option<Record>, at: nat)
    ensures var item := ItemOf(Ready(w), record, at);
      && item.tool == w.tool.name && item.eventId == w.ev.id && item.runId == w.ev.runId
      && item.input.kind == w.ev.kind && item.input.value == w.ev.value && item.input.target == w.ev.target
      && StateMeans(record, w.tool.evidence, at, item.state)
      && (record.Some? ==> item.attempts == record.value.task.attempts && item.emitted == record.value.task.emitted)
  {
  }

  lemma {:induction false} BlockerKey(tools: seq<Contract>, evs: seq<Event>, k: PreKey, b: Blocker)
    requires BlockerIn(tools, evs, k, b)
    ensures b.tool.name == k.tool && PreKeyOf(b.tool, b.ev) == k
  {
  }

  lemma {:induction false} WaitMeaning(s: System, tools: seq<Contract>, r: Report, k: PreKey)
    requires Faithful(s, tools, r) && Prerequisite(k) in r.items
    ensures WaitMeans(k, Planned(tools, Selection(s.log, r.filter)), r.items[Prerequisite(k)])
  {
    var evs := Selection(s.log, r.filter);
    ReasonReports(Planned(tools, evs), Prerequisite(k));
    BlockedExactly(tools, evs, k);
    BlockerKey(tools, evs, k, Planned(tools, evs).blocked[k]);
  }

  /** Every item of a faithful report says how its task stands, or what its subject waits for. */
  lemma {:induction false} ItemsMeaning(s: System, tools: seq<Contract>, r: Report, key: ItemKey)
    requires Orderly(s.registry) && Faithful(s, tools, r) && key in r.items
    ensures ItemMeans(s, tools, r, key, r.items[key])
  {
    match key
    case Work(k) => WorkMeaning(s, tools, r, k);
    case Prerequisite(k) => WaitMeaning(s, tools, r, k);
  }

  // ---------------------------------------------------------------- the whole report

  /** What a report says of one instant: each warning and each item. */
  ghost predicate Tells(s: System, tools: seq<Contract>, r: Report) {
    && (forall x :: x in r.warnings <==> Warns(s, r.filter, x))
    && (forall key :: key in r.items ==> ItemMeans(s, tools, r, key, r.items[key]))
  }

  lemma {:induction false} FaithfulTells(s: System, tools: seq<Contract>, r: Report)
    requires Orderly(s.registry) && Faithful(s, tools, r)
    ensures Tells(s, tools, r)
  {
    forall x ensures x in r.warnings <==> Warns(s, r.filter, x) {
      WarningsMeaning(s, tools, r, x);
    }
    forall key | key in r.items ensures ItemMeans(s, tools, r, key, r.items[key]) {
      ItemsMeaning(s, tools, r, key);
    }
  }

  /** What a complete report proves: closure, an intact history, and a deployment with all its workers. */
  lemma {:induction false} CompleteProves(s: System, tools: seq<Contract>, r: Report)
    requires Coherent(s) && Faithful(s, tools, r) && Certified(r)
    ensures Closed(s, r.filter) && NothingLost(s) && Deployed(s.registry)
  {
    CompleteCloses(s, tools, r);
    forall x ensures !Warns(s, r.filter, x) { WarningsMeaning(s, tools, r, x); }
    NoWarningsDeployed(s, r.filter);
  }
}
