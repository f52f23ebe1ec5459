/** The coverage report (internal/coverage/coverage.go): what a snapshot reads, what it concludes, and
    why "complete" means that the selected observations are closed under every registered worker. */
module Coverage {
  import opened Wrappers
  import opened Events
  import opened Work
  import opened WorkTheorems
  import opened Registry
  import opened Plans
  import opened PlanTheorems
  import opened TaskSteps
  import opened Cluster

  /** Select by run, by scope, or both; an empty string does not restrict. */
  datatype Filter = Filter(run: string, scope: string)

  // ---------------------------------------------------------------- which observations are selected

  predicate InScope(filter: Filter, ev: Event) {
    filter.scope == "" || Scope(ev) == filter.scope
  }

  predicate InRun(filter: Filter, ev: Event) {
    filter.run == "" || ev.runId == filter.run
  }

  predicate Readable(slot: Slot) {
    slot.kept && slot.seen.Some?
  }

  /** The observations a reader of these slots retains. */
  function Observations(slots: seq<Slot>, filter: Filter): seq<Event> {
    if slots == [] then []
    else
      var last := slots[|slots| - 1];
      Observations(slots[..|slots| - 1], filter) +
      (if Readable(last) && InScope(filter, last.seen.value) then [last.seen.value] else [])
  }

  function RunScopes(evs: seq<Event>, filter: Filter): set<string> {
    set ev | ev in evs && InRun(filter, ev) :: Scope(ev)
  }

  /** Task identity is per scope, not per run: everything in the run's scopes is selected. */
  function Chosen(evs: seq<Event>, scopes: set<string>): seq<Event> {
    if evs == [] then []
    else Chosen(evs[..|evs| - 1], scopes) + (if Scope(evs[|evs| - 1]) in scopes then [evs[|evs| - 1]] else [])
  }

  function Selection(slots: seq<Slot>, filter: Filter): seq<Event> {
    var evs := Observations(slots, filter);
    Chosen(evs, RunScopes(evs, filter))
  }

  lemma {:induction false} ObservationsAre(slots: seq<Slot>, filter: Filter, ev: Event)
    ensures ev in Observations(slots, filter) <==>
      exists i :: 0 <= i < |slots| && Readable(slots[i]) && slots[i].seen.value == ev && InScope(filter, ev)
  {
    if slots != [] {
      var n := |slots| - 1;
      ObservationsAre(slots[..n], filter, ev);
      if ev in Observations(slots[..n], filter) {
        var i :| 0 <= i < n && Readable(slots[..n][i]) && slots[..n][i].seen.value == ev && InScope(filter, ev);
        assert slots[i] == slots[..n][i];
      }
      if exists i :: 0 <= i < |slots| && Readable(slots[i]) && slots[i].seen.value == ev && InScope(filter, ev) {
        var i :| 0 <= i < |slots| && Readable(slots[i]) && slots[i].seen.value == ev && InScope(filter, ev);
        assert i < n ==> slots[..n][i] == slots[i];
      }
    }
  }

  lemma {:induction false} ChosenAre(evs: seq<Event>, scopes: set<string>, ev: Event)
    ensures ev in Chosen(evs, scopes) <==> ev in evs && Scope(ev) in scopes
  {
    if evs != [] {
      InSnoc(evs);
      ChosenAre(evs[..|evs| - 1], scopes, ev);
    }
  }

  // ---------------------------------------------------------------- what is said about one expectation

  datatype State = Blocked(why: Why) | Unclaimed | Recorded(status: Status) | WithoutEvidence | LeaseExpired

  datatype Problem = NoProblem | TaskError(reason: Reason) | NoEvidence(evidence: string)

  datatype Item = Item(tool: string, eventId: string, runId: string, scope: string, input: Input,
                       state: State, taskRunId: string, attempts: nat, emitted: nat, problem: Problem)

  function Subject(exp: Expectation): (Contract, Event) {
    match exp
    case Ready(w) => (w.tool, w.ev)
    case Waiting(b) => (b.tool, b.ev)
  }

  predicate Lapsed(t: Work.Task, at: nat) {
    (t.status == Running || t.status == Publishing) && t.leaseUntil <= at
  }

  function StateOf(tool: Contract, t: Work.Task, at: nat): State {
    if t.status == Completed && t.emitted == 0 && tool.evidence != "" then WithoutEvidence
    else if Lapsed(t, at) then LeaseExpired
    else Recorded(t.status)
  }

  function ItemOf(exp: Expectation, record: Option<Record>, at: nat): Item {
    var (tool, ev) := Subject(exp);
    var blank := Item(tool.name, ev.id, ev.runId, Scope(ev), AsInput(ev), Unclaimed, "", 0, 0, NoProblem);
    if exp.Waiting? then blank.(state := Blocked(exp.blocker.why))
    else if record.None? then blank
    else
      var t := record.value.task;
      var state := StateOf(tool, t, at);
      blank.(state := state, taskRunId := t.origin.runId, attempts := t.attempts, emitted := t.emitted,
             problem := if state == WithoutEvidence then NoEvidence(tool.evidence) else TaskError(t.error))
  }

  /** The record looked up for an expectation; a prerequisite has none. */
  function RecordFor(s: System, key: ItemKey): Option<Record> {
    if key.Work? then RecordAt(s, key.key) else None
  }

  // ---------------------------------------------------------------- the report

  datatype Warning =
    | NoWorkers | InventoryMissing | InventoryNotReady | NotRegistered(name: string)
    | HistoryRemoved | SequenceGone(number: nat) | NothingMatches | UnknownWorker(name: string) | Changed

  datatype Report = Report(
    filter: Filter, at: nat, through: nat, registryLast: nat, inventory: Option<Inventory>,
    matched: nat, sharedScopes: set<string>, stable: bool, complete: bool,
    counts: map<State, nat>, warnings: set<Warning>, items: map<ItemKey, Item>)

  /** Stream state: first and last sequence number, and how many messages are kept. */
  datatype Info = Info(first: nat, last: nat, msgs: nat)

  function Leading(log: seq<Slot>): nat {
    if log != [] && !log[0].kept then 1 + Leading(log[1..]) else 0
  }

  function KeptCount(log: seq<Slot>): nat {
    if log == [] then 0 else KeptCount(log[..|log| - 1]) + (if log[|log| - 1].kept then 1 else 0)
  }

  function InfoOf(log: seq<Slot>): Info {
    Info(Leading(log) + 1, |log|, KeptCount(log))
  }

  lemma {:induction false} RemovedBound(log: seq<Slot>)
    ensures Leading(log) <= |log|
    ensures forall i :: 0 <= i < Leading(log) ==> !log[i].kept
  {
    if log != [] && !log[0].kept {
      RemovedBound(log[1..]);
      assert forall i :: 0 < i < |log| ==> log[i] == log[1..][i - 1];
    }
  }

  lemma {:induction false} KeptBound(log: seq<Slot>)
    ensures KeptCount(log) <= |log|
    ensures KeptCount(log) == |log| ==> forall i :: 0 <= i < |log| ==> log[i].kept
  {
    if log != [] { KeptBound(log[..|log| - 1]); }
  }

  /** Same length and same number of kept messages: nothing happened to the stream. */
  lemma {:induction false} SameLog(log: seq<Slot>, log': seq<Slot>)
    requires LogGrows(log, log') && |log| == |log'|
    ensures KeptCount(log') <= KeptCount(log)
    ensures KeptCount(log') == KeptCount(log) ==> log' == log
    decreases |log|
  {
    if log != [] {
      var n := |log| - 1;
      SameLog(log[..n], log'[..n]);
      assert log == log[..n] + [log[n]] && log' == log'[..n] + [log'[n]];
    }
  }

  /** Whatever was observed in between, equal counters at both ends mean an unchanged deployment. */
  lemma StableMeansUnchanged(s: System, mid: System, s': System)
    requires Grows(s, mid) && Grows(mid, s')
    requires InfoOf(s.log) == InfoOf(s'.log)
    ensures mid.log == s.log == s'.log
  {
    assert |s.log| == |mid.log| == |s'.log|;
    GrowsTransitive(s, mid, s');
    SameLog(s.log, s'.log);
    SameLog(s.log, mid.log);
    SameLog(mid.log, s'.log);
  }

  // ---------------------------------------------------------------- what complete promises

  /** The task of this eligible pair succeeded, with evidence where the tool owes some. */
  ghost predicate Done(s: System, tool: Contract, ev: Event) {
    var record := RecordAt(s, WorkKeyOf(tool, ev));
    && record.Some? && record.value.task.status == Completed
    && (tool.evidence != "" ==> record.value.task.emitted > 0)
  }

  /** The batch of the task's last, successful run. */
  function FinalBatch(s: System, k: WorkKey): seq<Event> {
    var w := WorldOf(s, k);
    if w.kv.Some? && w.kv.value.task.resultKey.Some? && w.kv.value.task.resultKey.value in w.outbox
    then w.outbox[w.kv.value.task.resultKey.value].events
    else []
  }

  /** Output j of that batch is on the stream, and the selection contains it. */
  ghost predicate OutputSelected(s: System, filter: Filter, k: WorkKey, j: nat) {
    var t := RecordAt(s, k);
    && t.Some? && t.value.task.resultKey.Some?
    && exists i :: 0 <= i < |s.log| && s.log[i].source == Output(k, Copy(t.value.task.resultKey.value, j))
                   && Readable(s.log[i]) && s.log[i].seen.value in Selection(s.log, filter)
  }

  predicate SameId(slot: Slot, other: Slot) {
    slot.seen.Some? && other.seen.Some? && slot.seen.value.id == other.seen.value.id
  }

  /** Observation sinks are keyed by event ID; an ID must then say which scope it belongs to. */
  ghost predicate OneScopePerId(log: seq<Slot>) {
    forall i, j :: 0 <= i < |log| && 0 <= j < |log| && SameId(log[i], log[j]) ==> Scope(log[i].seen.value) == Scope(log[j].seen.value)
  }

  ghost predicate Registered(s: System, tool: Contract) {
    exists n :: n in s.registry.workers && tool == ReadEntry(s.registry, n)
  }

  /** The selected observations are closed under every registered worker. */
  ghost predicate Closed(s: System, filter: Filter) {
    forall tool, ev :: Registered(s, tool) && ev in Selection(s.log, filter) && Eligible(tool, ev) ==>
      && Done(s, tool, ev)
      && (!tool.observe || OneScopePerId(s.log) ==>
            forall j :: 0 <= j < |FinalBatch(s, WorkKeyOf(tool, ev))| ==> OutputSelected(s, filter, WorkKeyOf(tool, ev), j))
  }

  ghost predicate NothingLost(s: System) {
    forall i :: 0 <= i < |s.log| ==> Readable(s.log[i])
  }

  lemma SelectionAre(log: seq<Slot>, filter: Filter, ev: Event)
    ensures ev in Selection(log, filter) <==>
      && (exists i :: 0 <= i < |log| && Readable(log[i]) && log[i].seen.value == ev && InScope(filter, ev))
      && Scope(ev) in RunScopes(Observations(log, filter), filter)
  {
    ObservationsAre(log, filter, ev);
    ChosenAre(Observations(log, filter), RunScopes(Observations(log, filter), filter), ev);
  }

  /** A message that is on the stream, can be read, and belongs to the scope that was asked for, if any. */
  predicate Offered(log: seq<Slot>, scope: string, i: int, ev: Event) {
    0 <= i < |log| && log[i].kept && log[i].seen == Some(ev) && (scope == "" || Scope(ev) == scope)
  }

  ghost predicate OfferedTo(log: seq<Slot>, scope: string, ev: Event) {
    exists i :: Offered(log, scope, i, ev)
  }

  /** What is selected: the observations of the scope, and, when a run is asked for, those whose scope some
      observation of that run has. */
  lemma SelectionIff(log: seq<Slot>, filter: Filter, ev: Event)
    ensures ev in Selection(log, filter) <==>
      && OfferedTo(log, filter.scope, ev)
      && exists other :: OfferedTo(log, filter.scope, other) && Scope(other) == Scope(ev) && (filter.run == "" || other.runId == filter.run)
  {
    forall x ensures x in Observations(log, filter) <==> OfferedTo(log, filter.scope, x) {
      ObservationsAre(log, filter, x);
      if x in Observations(log, filter) {
        var i :| 0 <= i < |log| && Readable(log[i]) && log[i].seen.value == x && InScope(filter, x);
        assert Offered(log, filter.scope, i, x);
      }
      if OfferedTo(log, filter.scope, x) {
        var i :| Offered(log, filter.scope, i, x);
        assert Readable(log[i]) && log[i].seen.value == x && InScope(filter, x);
      }
    }
    ChosenAre(Observations(log, filter), RunScopes(Observations(log, filter), filter), ev);
    if ev in Selection(log, filter) {
      var other :| other in Observations(log, filter) && InRun(filter, other) && Scope(other) == Scope(ev);
      assert OfferedTo(log, filter.scope, other);
    }
  }

  /** An output carries the scope of every input its key stands for. */
  lemma OutputScope(s: System, k: WorkKey, tool: Contract, ev: Event, i: nat, out: Event)
    requires TaskFits(s, k, WorldOf(s, k)) && k == WorkKeyOf(tool, ev)
    requires out in FinalBatch(s, k) && i < |s.log| && s.log[i].seen == Some(ev)
    requires !tool.observe || OneScopePerId(s.log)
    ensures Scope(out) == Scope(ev)
  {
    var w := WorldOf(s, k);
    var batch := w.outbox[w.kv.value.task.resultKey.value];
    assert FromInput(w, batch);
    var a :| a in w.acts && Scope(out) == Scope(w.acts[a].ev);
    assert ActFits(s, k, w.acts[a]);
  }

  lemma ScopeSelects(log: seq<Slot>, filter: Filter, ev: Event, i: nat)
    requires ev in Selection(log, filter) && i < |log| && Readable(log[i]) && Scope(log[i].seen.value) == Scope(ev)
    ensures log[i].seen.value in Selection(log, filter)
  {
    SelectionAre(log, filter, ev);
    SelectionAre(log, filter, log[i].seen.value);
  }

  lemma SelectedAt(log: seq<Slot>, filter: Filter, ev: Event) returns (i: nat)
    requires ev in Selection(log, filter)
    ensures i < |log| && log[i].seen == Some(ev)
  {
    SelectionAre(log, filter, ev);
    i :| 0 <= i < |log| && Readable(log[i]) && log[i].seen.value == ev && InScope(filter, ev);
  }

  /** A completed task's outputs are all on the stream, and selected along with its input. */
  lemma OutputsFollow(s: System, filter: Filter, k: WorkKey, tool: Contract, ev: Event, j: nat)
    requires Coherent(s) && NothingLost(s) && ev in Selection(s.log, filter) && k == WorkKeyOf(tool, ev)
    requires RecordAt(s, k).Some? && RecordAt(s, k).value.task.status == Completed
    requires !tool.observe || OneScopePerId(s.log)
    requires j < |FinalBatch(s, k)|
    ensures OutputSelected(s, filter, k, j)
  {
    WorldFits(s, k);
    var here := SelectedAt(s.log, filter, ev);
    var i := CopyAt(s, k, WorldOf(s, k), j);
    OutputScope(s, k, tool, ev, here, FinalBatch(s, k)[j]);
    assert Readable(s.log[i]);
    ScopeSelects(s.log, filter, ev, i);
  }

  lemma CopyAt(s: System, k: WorkKey, w: World, j: nat) returns (i: nat)
    requires Coherent(s) && NothingLost(s) && w == WorldOf(s, k) && TaskFits(s, k, w)
    requires w.kv.Some? && w.kv.value.task.status == Completed && j < |FinalBatch(s, k)|
    ensures w.kv.value.task.resultKey.Some?
    ensures i < |s.log| && s.log[i].source == Output(k, Copy(w.kv.value.task.resultKey.value, j))
    ensures Scope(s.log[i].seen.value) == Scope(FinalBatch(s, k)[j])
  {
    ReachedInv(w);
    CompletedHere(w);
    var copy := Copy(w.kv.value.task.resultKey.value, j);
    assert copy in w.pub;
    assert OnStream(s, k, copy);
    i :| 0 <= i < |s.log| && s.log[i].source == Output(k, copy);
    assert SlotFits(s, s.log[i]) && Readable(s.log[i]);
  }

  lemma CompletedHere(w: World)
    requires Reached(w) && w.kv.Some? && w.kv.value.task.status == Completed
    ensures var t := w.kv.value.task;
      && t.resultKey.Some? && t.resultKey.value in w.outbox
      && forall j :: 0 <= j < |w.outbox[t.resultKey.value].events| ==> Copy(t.resultKey.value, j) in w.pub
  {
    var ls :| Work.Runs(INITIAL, ls) && Work.Final(INITIAL, ls) == w;
    CompletedMeansPublished(ls);
  }
}
