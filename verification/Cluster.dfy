/** The whole deployment: every task's protocol, the one EVENTS stream that feeds and records them, and
    the worker registry. */
module Cluster {
  import opened Wrappers
  import opened Events
  import opened Work
  import opened Registry
  import opened TaskSteps
  import opened WorkIds

  /** Who put a message on the stream: an operator, under some message ID, or a task publishing an output
      under that output's ID. */
  datatype Source = Seeded(id: string) | Output(key: WorkKey, copy: Copy)

  /** One stream sequence number. `seen` is what every reader makes of the message: decoded, canonical,
      with the same ID and run ID filled in; `None` if it cannot be read. `kept`: not yet removed. */
  datatype Slot = Slot(source: Source, seen: Option<Event>, kept: bool)

  /** All tasks share the clock, the id supply and the revision counter of the work bucket. */
  datatype System = System(
    worlds: map<WorkKey, World>, now: nat, nuid: Id, seqNo: nat, log: seq<Slot>, registry: Shelf)

  const START := System(map[], 1, 0, 0, [], Shelf(map[], None, 0))

  datatype Move =
    | Advance(key: WorkKey, l: Label, tool: Contract, seen: Option<Event>)
    | Seed(id: string, seen: Option<Event>)
    | Remove(i: nat)
    | Shelve(shelf: Shelf)
    | Wait(now: nat)

  function Blank(s: System): World {
    INITIAL.(now := s.now, nuid := s.nuid, seqNo := s.seqNo)
  }

  function WorldOf(s: System, k: WorkKey): World {
    if k in s.worlds then s.worlds[k] else Blank(s)
  }

  // ---------------------------------------------------------------- message IDs

  function SeededIds(log: seq<Slot>): set<string> {
    set i | 0 <= i < |log| && log[i].source.Seeded? :: log[i].source.id
  }

  /** The IDs of all outputs of these tasks, published or not. */
  function OutputIds(worlds: map<WorkKey, World>): set<string> {
    set k, id | k in worlds && id in UsedIds(worlds[k]) :: id
  }

  /** The IDs that are not task k's own. */
  function ForeignIds(s: System, k: WorkKey): set<string> {
    SeededIds(s.log) + OutputIds(s.worlds - {k})
  }

  // ---------------------------------------------------------------- steps

  /** onMsg hands a message to process only if the tool is eligible for it. */
  predicate DeliveryFits(s: System, k: WorkKey, l: Label, tool: Contract) {
    l.Deliver? ==>
      && l.msg < |s.log| && s.log[l.msg].kept && s.log[l.msg].seen == Some(l.ev)
      && tool.name == l.cfg.name && Eligible(tool, l.ev) && WorkKeyOf(tool, l.ev) == k
  }

  /** Readers see an output under its own ID and scope, if they can read it at all. */
  predicate SeenAs(w: World, copy: Copy, seen: Option<Event>) {
    Saved(w, copy) && seen.Some? ==>
      var out := w.outbox[copy.key].events[copy.index];
      Scope(seen.value) == Scope(out) && seen.value.id == out.id
  }

  /** The broker may drop what has an ID it has seen; handlers set no scope, and give their outputs IDs of
      their own or none (Outputs.FreshOutputs). So do operators. */
  predicate Allowed(s: System, m: Move) {
    match m
    case Advance(key, l, tool, seen) =>
      && Accepted(WorldOf(s, key), l, ForeignIds(s, key)) && NewIds(WorldOf(s, key), l, ForeignIds(s, key))
      && !l.Tick? && KeepsScope(WorldOf(s, key), l)
      && DeliveryFits(s, key, l, tool)
      && forall copy :: copy in NewCopies(WorldOf(s, key), Apply(WorldOf(s, key), l)) ==> SeenAs(Apply(WorldOf(s, key), l), copy, seen)
    case Seed(id, _) => id !in OutputIds(s.worlds)
    case Remove(i) => i < |s.log|
    case Shelve(shelf) => shelf.last > s.registry.last && Orderly(shelf)
    case Wait(now) => s.now <= now
  }

  /** Task k, brought up to these counters. */
  function Behind(s: System, k: WorkKey, now: nat, nuid: Id, seqNo: nat): World
    requires k in s.worlds
  {
    CaughtUp(s.worlds[k], now, nuid, seqNo)
  }

  /** Task `key` is now in world `w`; the others see its clock and counters. */
  function Settled(s: System, key: WorkKey, w: World): map<WorkKey, World> {
    map k | k in s.worlds.Keys + {key} :: if k == key then w else Behind(s, k, w.now, w.nuid, w.seqNo)
  }

  function Slots(key: WorkKey, copies: seq<Copy>, seen: Option<Event>): seq<Slot> {
    seq(|copies|, i requires 0 <= i < |copies| => Slot(Output(key, copies[i]), seen, true))
  }

  function Take(s: System, m: Move): System
    requires Allowed(s, m)
  {
    match m
    case Advance(key, l, _, seen) => TakeTask(s, key, WorldOf(s, key), Apply(WorldOf(s, key), l), seen)
    case Seed(id, seen) => s.(log := s.log + [Slot(Seeded(id), seen, true)])
    case Remove(i) => s.(log := s.log[i := s.log[i].(kept := false)])
    case Shelve(shelf) => s.(registry := shelf)
    case Wait(now) => s.(now := now, worlds := map k | k in s.worlds :: Behind(s, k, now, s.nuid, s.seqNo))
  }

  function TakeTask(s: System, key: WorkKey, w: World, w': World, seen: Option<Event>): System {
    s.(worlds := Settled(s, key, w'), now := w'.now, nuid := w'.nuid, seqNo := w'.seqNo,
       log := s.log + Slots(key, NewCopies(w, w'), seen))
  }

  // ---------------------------------------------------------------- the invariant

  predicate KeyFits(k: WorkKey, tool: string, ev: Event) {
    k == Observed(tool, ev.id) || k == DedupKey(tool, ev)
  }

  predicate ActFits(s: System, k: WorkKey, act: Act) {
    act.msg < |s.log| && s.log[act.msg].seen == Some(act.ev) && KeyFits(k, act.cfg.name, act.ev)
  }

  ghost predicate OnStream(s: System, k: WorkKey, copy: Copy) {
    exists i :: 0 <= i < |s.log| && s.log[i].source == Output(k, copy)
  }

  ghost predicate TaskFits(s: System, k: WorkKey, w: World) {
    && Reached(w) && ScopesOk(w)
    && w.now == s.now && w.nuid == s.nuid && w.seqNo == s.seqNo
    && (forall a :: a in w.acts ==> ActFits(s, k, w.acts[a]))
    && (forall copy :: copy in w.pub ==> OnStream(s, k, copy))
  }

  predicate SlotFits(s: System, slot: Slot) {
    slot.source.Output? ==>
      && slot.source.key in s.worlds
      && var w := s.worlds[slot.source.key]; var copy := slot.source.copy;
      Saved(w, copy) && SeenAs(w, copy, slot.seen)
  }

  /** Every output has a message ID of its own. */
  ghost predicate IdsFit(s: System) {
    forall k :: k in s.worlds ==> IdsOwned(s.worlds[k], ForeignIds(s, k))
  }

  ghost predicate TasksFit(s: System) {
    forall k :: k in s.worlds ==> TaskFits(s, k, s.worlds[k])
  }

  ghost predicate SlotsFit(s: System) {
    forall i :: 0 <= i < |s.log| ==> SlotFits(s, s.log[i])
  }

  ghost predicate Coherent(s: System) {
    && s.now >= 1 && Orderly(s.registry)
    && TasksFit(s) && IdsFit(s) && SlotsFit(s)
  }

  // ---------------------------------------------------------------- it only grows

  function RecordAt(s: System, k: WorkKey): Option<Record> {
    WorldOf(s, k).kv
  }

  /** Messages are appended and removed, never altered. */
  predicate LogGrows(log: seq<Slot>, log': seq<Slot>) {
    && |log| <= |log'|
    && forall i :: 0 <= i < |log| ==>
         log'[i].source == log[i].source && log'[i].seen == log[i].seen && (log'[i].kept ==> log[i].kept)
  }

  ghost predicate Grows(s: System, s': System) {
    && LogGrows(s.log, s'.log)
    && s.now <= s'.now && s.seqNo <= s'.seqNo && (s'.seqNo == s.seqNo ==> forall k :: RecordAt(s', k) == RecordAt(s, k))
    && s.registry.last <= s'.registry.last && (s'.registry.last == s.registry.last ==> s'.registry == s.registry)
  }

  lemma GrowsTransitive(s: System, s1: System, s2: System)
    requires Grows(s, s1) && Grows(s1, s2)
    ensures Grows(s, s2)
  {
  }

  lemma GrowsStep(s: System, m: Move)
    requires Coherent(s) && Allowed(s, m)
    ensures Grows(s, Take(s, m))
  {
    if m.Advance? {
      WorldFits(s, m.key);
      AllowedEnabled(s, m.key, m.l, m.tool, m.seen);
      LaterStep(WorldOf(s, m.key), m.l);
      TaskGrows(s, m.key, WorldOf(s, m.key), Apply(WorldOf(s, m.key), m.l), m.seen);
    } else {
      QuietGrows(s, m);
    }
  }

  lemma QuietGrows(s: System, m: Move)
    requires Allowed(s, m) && !m.Advance?
    ensures Grows(s, Take(s, m))
  {
    forall k ensures RecordAt(Take(s, m), k) == RecordAt(s, k) {}
  }

  lemma TaskGrows(s: System, key: WorkKey, w: World, w': World, seen: Option<Event>)
    requires w == WorldOf(s, key) && Later(w, w')
    requires w.now == s.now && w.nuid == s.nuid && w.seqNo == s.seqNo
    ensures Grows(s, TakeTask(s, key, w, w', seen))
  {
    var s' := TakeTask(s, key, w, w', seen);
    if s'.seqNo == s.seqNo {
      forall k ensures RecordAt(s', k) == RecordAt(s, k) {}
    }
  }

  // ---------------------------------------------------------------- IDs

  lemma BlankIds(w: World, others: set<string>)
    requires w.outbox == map[] && w.puts == map[] && w.acts == map[]
    ensures IdsOwned(w, others)
  {
    assert Batches(w) == {};
  }

  /** A task's move is a step of its protocol, because its outputs' IDs are its own. */
  lemma AllowedEnabled(s: System, k: WorkKey, l: Label, tool: Contract, seen: Option<Event>)
    requires Coherent(s) && Allowed(s, Move.Advance(k, l, tool, seen))
    ensures Enabled(WorldOf(s, k), l)
  {
    OwnIds(s, k);
    AcceptedIsStep(WorldOf(s, k), l, ForeignIds(s, k));
  }

  lemma OwnIds(s: System, k: WorkKey)
    requires IdsFit(s)
    ensures IdsOwned(WorldOf(s, k), ForeignIds(s, k))
  {
    if k !in s.worlds { BlankIds(WorldOf(s, k), ForeignIds(s, k)); }
  }

  lemma SameIds(w: World, now: nat, nuid: Id, seqNo: nat)
    ensures Batches(CaughtUp(w, now, nuid, seqNo)) == Batches(w) && UsedIds(CaughtUp(w, now, nuid, seqNo)) == UsedIds(w)
  {
  }

  lemma IdsElsewhere(w: World, w': World, others: set<string>, others': set<string>)
    requires IdsOwned(w, others) && Batches(w') == Batches(w) && UsedIds(w') == UsedIds(w) && others' !! UsedIds(w)
    ensures IdsOwned(w', others')
  {
  }

  /** The other tasks' IDs stay the same while task k moves. */
  lemma ForeignKept(s: System, s': System, k: WorkKey, w': World)
    requires SeededIds(s'.log) == SeededIds(s.log) && s'.worlds == Settled(s, k, w')
    ensures ForeignIds(s', k) == ForeignIds(s, k)
  {
    var a, b := s.worlds - {k}, s'.worlds - {k};
    forall j | j in a ensures j in b && UsedIds(b[j]) == UsedIds(a[j]) { SameIds(a[j], w'.now, w'.nuid, w'.seqNo); }
    SameOutputIds(a, b);
  }

  lemma SameOutputIds(a: map<WorkKey, World>, b: map<WorkKey, World>)
    requires a.Keys == b.Keys && forall j :: j in a ==> UsedIds(b[j]) == UsedIds(a[j])
    ensures OutputIds(a) == OutputIds(b)
  {
  }

  /** Seen from task k, a move of task `key` adds that task's IDs at most. */
  lemma ForeignMoved(s: System, s': System, key: WorkKey, k: WorkKey, w': World, id: string)
    requires SeededIds(s'.log) == SeededIds(s.log) && s'.worlds == Settled(s, key, w') && k != key
    requires id in ForeignIds(s', k) && id !in UsedIds(w')
    ensures id in ForeignIds(s, k)
  {
    if id in OutputIds(s'.worlds - {k}) {
      var j :| j in s'.worlds - {k} && id in UsedIds((s'.worlds - {k})[j]);
      SameIds(s.worlds[j], w'.now, w'.nuid, w'.seqNo);
      var a := s.worlds - {k};
      assert j in a && a[j] == s.worlds[j] && id in UsedIds(a[j]);
    }
  }

  lemma OthersApart(s: System, key: WorkKey, w': World, k: WorkKey)
    requires UsedIds(w') !! ForeignIds(s, key) && k in s.worlds && k != key
    ensures UsedIds(s.worlds[k]) !! UsedIds(w')
  {
    forall id | id in UsedIds(s.worlds[k]) ensures id in ForeignIds(s, key) {
      assert k in s.worlds - {key} && (s.worlds - {key})[k] == s.worlds[k];
    }
  }

  /** A move keeps every ID to one output. */
  lemma IdsMoved(s: System, s': System, key: WorkKey, w': World)
    requires IdsFit(s) && IdsOwned(w', ForeignIds(s, key))
    requires SeededIds(s'.log) == SeededIds(s.log) && s'.worlds == Settled(s, key, w')
    ensures IdsFit(s')
  {
    forall k | k in s'.worlds ensures IdsOwned(s'.worlds[k], ForeignIds(s', k)) {
      if k == key {
        ForeignKept(s, s', k, w');
      } else {
        OthersApart(s, key, w', k);
        SameIds(s.worlds[k], w'.now, w'.nuid, w'.seqNo);
        forall id | id in ForeignIds(s', k) ensures id !in UsedIds(s.worlds[k]) {
          if id !in UsedIds(w') { ForeignMoved(s, s', key, k, w', id); }
        }
        IdsElsewhere(s.worlds[k], s'.worlds[k], ForeignIds(s, k), ForeignIds(s', k));
      }
    }
  }

  lemma TaskSlotsSeedNothing(s: System, key: WorkKey, w: World, w': World, seen: Option<Event>)
    ensures SeededIds(TakeTask(s, key, w, w', seen).log) == SeededIds(s.log)
  {
    var log, log' := s.log, TakeTask(s, key, w, w', seen).log;
    forall id ensures id in SeededIds(log') <==> id in SeededIds(log) {
      if id in SeededIds(log) {
        var i :| 0 <= i < |log| && log[i].source.Seeded? && log[i].source.id == id;
        assert log'[i] == log[i];
      }
    }
  }

  /** Moves that touch no task. */
  lemma IdsQuiet(s: System, m: Move)
    requires IdsFit(s) && Allowed(s, m) && !m.Advance?
    ensures IdsFit(Take(s, m))
  {
    var s' := Take(s, m);
    forall k | k in s'.worlds ensures IdsOwned(s'.worlds[k], ForeignIds(s', k)) {
      if m.Wait? { SameIds(s.worlds[k], m.now, s.nuid, s.seqNo); }
      QuietForeign(s, m, k);
      IdsElsewhere(s.worlds[k], s'.worlds[k], ForeignIds(s, k), ForeignIds(s', k));
    }
  }

  lemma QuietForeign(s: System, m: Move, k: WorkKey)
    requires IdsFit(s) && Allowed(s, m) && !m.Advance? && k in s.worlds
    ensures ForeignIds(Take(s, m), k) !! UsedIds(s.worlds[k])
  {
    var s' := Take(s, m);
    forall id | id in ForeignIds(s', k) ensures id !in UsedIds(s.worlds[k]) {
      if id in OutputIds(s'.worlds - {k}) {
        QuietOutputs(s, m, k, id);
      } else if !(m.Seed? && id == m.id) {
        QuietSeeds(s, m, id);
      }
    }
  }

  lemma QuietOutputs(s: System, m: Move, k: WorkKey, id: string)
    requires Allowed(s, m) && !m.Advance? && id in OutputIds(Take(s, m).worlds - {k})
    ensures id in OutputIds(s.worlds - {k})
  {
    var a, b := s.worlds - {k}, Take(s, m).worlds - {k};
    forall j | j in a ensures j in b && UsedIds(b[j]) == UsedIds(a[j]) {
      if m.Wait? { SameIds(a[j], m.now, s.nuid, s.seqNo); }
    }
    SameOutputIds(a, b);
  }

  lemma QuietSeeds(s: System, m: Move, id: string)
    requires Allowed(s, m) && !m.Advance? && id in SeededIds(Take(s, m).log) && !(m.Seed? && id == m.id)
    ensures id in SeededIds(s.log)
  {
    var log' := Take(s, m).log;
    var i :| 0 <= i < |log'| && log'[i].source.Seeded? && log'[i].source.id == id;
    assert log'[i].source == s.log[i].source;
  }

  // ---------------------------------------------------------------- preservation

  lemma WorldFits(s: System, k: WorkKey)
    requires Coherent(s)
    ensures TaskFits(s, k, WorldOf(s, k))
  {
    if k !in s.worlds {
      InitialReached();
      IdleStep(INITIAL, s.now, s.nuid, s.seqNo);
    }
  }

  /** The stream keeps what a task needs of it. */
  lemma OnStreamStays(s: System, s': System, k: WorkKey, copy: Copy)
    requires LogGrows(s.log, s'.log) && OnStream(s, k, copy)
    ensures OnStream(s', k, copy)
  {
    var i :| 0 <= i < |s.log| && s.log[i].source == Output(k, copy);
    assert s'.log[i].source == Output(k, copy);
  }

  /** A task that did not move: only clock and counters advanced, and the stream grew. */
  lemma IdleFits(s: System, s': System, k: WorkKey, w: World)
    requires TaskFits(s, k, w) && LogGrows(s.log, s'.log) && s.now <= s'.now && s.nuid <= s'.nuid && s.seqNo <= s'.seqNo
    ensures TaskFits(s', k, CaughtUp(w, s'.now, s'.nuid, s'.seqNo))
  {
    var w' := CaughtUp(w, s'.now, s'.nuid, s'.seqNo);
    IdleStep(w, s'.now, s'.nuid, s'.seqNo);
    forall copy | copy in w'.pub ensures OnStream(s', k, copy) { OnStreamStays(s, s', k, copy); }
    forall a | a in w'.acts ensures ActFits(s', k, w'.acts[a]) { assert ActFits(s, k, w.acts[a]); }
  }

  /** A slot stays accounted for as the outbox behind it is never rewritten. */
  lemma SlotStays(s: System, s': System, slot: Slot, slot': Slot)
    requires SlotFits(s, slot) && slot'.source == slot.source && slot'.seen == slot.seen
    requires slot.source.Output? ==>
      slot.source.key in s'.worlds && TaskSteps.Kept(s.worlds[slot.source.key], s'.worlds[slot.source.key])
    ensures SlotFits(s', slot')
  {
  }

  lemma QuietTasks(s: System, m: Move)
    requires TasksFit(s) && Allowed(s, m) && !m.Advance?
    ensures TasksFit(Take(s, m))
  {
    var s' := Take(s, m);
    forall k | k in s'.worlds ensures TaskFits(s', k, s'.worlds[k]) {
      assert s.worlds[k] == CaughtUp(s.worlds[k], s.now, s.nuid, s.seqNo);
      IdleFits(s, s', k, s.worlds[k]);
    }
  }

  lemma QuietSlots(s: System, m: Move)
    requires SlotsFit(s) && Allowed(s, m) && !m.Advance?
    ensures SlotsFit(Take(s, m))
  {
    var s' := Take(s, m);
    forall i | 0 <= i < |s'.log| ensures SlotFits(s', s'.log[i]) {
      if i < |s.log| { SlotStays(s, s', s.log[i], s'.log[i]); }
    }
  }

  /** Moves that touch no task. */
  lemma QuietMove(s: System, m: Move)
    requires Coherent(s) && Allowed(s, m) && !m.Advance?
    ensures Coherent(Take(s, m))
  {
    QuietTasks(s, m);
    QuietSlots(s, m);
    IdsQuiet(s, m);
  }

  /** What Allowed and the protocol say of a task's move from w to w'. */
  ghost predicate Moves(s: System, k: WorkKey, w: World, w': World, l: Label, seen: Option<Event>) {
    && w == WorldOf(s, k) && TaskFits(s, k, w) && Advanced(w, w', l) && ScopesOk(w') && IdsOwned(w', ForeignIds(s, k))
    && (l.Deliver? ==> l.msg < |s.log| && s.log[l.msg].seen == Some(l.ev) && KeyFits(k, l.cfg.name, l.ev))
    && forall copy :: copy in NewCopies(w, w') ==> SeenAs(w', copy, seen)
  }

  lemma MovedActs(s: System, s': System, k: WorkKey, w: World, w': World, l: Label, seen: Option<Event>)
    requires Moves(s, k, w, w', l, seen) && LogGrows(s.log, s'.log)
    ensures forall a :: a in w'.acts ==> ActFits(s', k, w'.acts[a])
  {
    forall a | a in w'.acts ensures ActFits(s', k, w'.acts[a]) {
      if a in w.acts && SameInput(w.acts[a], w'.acts[a]) { assert ActFits(s, k, w.acts[a]); }
    }
  }

  lemma NewOnStream(s: System, k: WorkKey, w: World, w': World, seen: Option<Event>, i: nat)
    requires i < |NewCopies(w, w')|
    ensures OnStream(TakeTask(s, k, w, w', seen), k, NewCopies(w, w')[i])
  {
    var s' := TakeTask(s, k, w, w', seen);
    assert s'.log[|s.log| + i] == Slot(Output(k, NewCopies(w, w')[i]), seen, true);
  }

  lemma OldOnStream(s: System, k: WorkKey, w: World, w': World, seen: Option<Event>, copy: Copy)
    requires OnStream(s, k, copy)
    ensures OnStream(TakeTask(s, k, w, w', seen), k, copy)
  {
    var i :| 0 <= i < |s.log| && s.log[i].source == Output(k, copy);
    assert TakeTask(s, k, w, w', seen).log[i] == s.log[i];
  }

  lemma MovedCopies(s: System, k: WorkKey, w: World, w': World, l: Label, seen: Option<Event>)
    requires Moves(s, k, w, w', l, seen)
    ensures forall copy :: copy in w'.pub ==> OnStream(TakeTask(s, k, w, w', seen), k, copy)
  {
    var added := NewCopies(w, w');
    forall copy | copy in w'.pub ensures OnStream(TakeTask(s, k, w, w', seen), k, copy) {
      if copy in w.pub {
        OldOnStream(s, k, w, w', seen, copy);
      } else {
        var i :| 0 <= i < |added| && added[i] == copy;
        NewOnStream(s, k, w, w', seen, i);
      }
    }
  }

  lemma OldSlot(s: System, k: WorkKey, w: World, w': World, seen: Option<Event>, slot: Slot)
    requires w == WorldOf(s, k) && Kept(w, w') && SlotFits(s, slot)
    ensures SlotFits(TakeTask(s, k, w, w', seen), slot)
  {
  }

  lemma NewSlot(s: System, k: WorkKey, w: World, w': World, seen: Option<Event>, copy: Copy)
    requires Saved(w', copy) && SeenAs(w', copy, seen)
    ensures SlotFits(TakeTask(s, k, w, w', seen), Slot(Output(k, copy), seen, true))
  {
  }

  lemma MovedSlots(s: System, k: WorkKey, w: World, w': World, l: Label, seen: Option<Event>)
    requires Coherent(s) && Moves(s, k, w, w', l, seen)
    ensures SlotsFit(TakeTask(s, k, w, w', seen))
  {
    var s' := TakeTask(s, k, w, w', seen);
    var added := NewCopies(w, w');
    forall i | 0 <= i < |s'.log| ensures SlotFits(s', s'.log[i]) {
      if i < |s.log| {
        OldSlot(s, k, w, w', seen, s.log[i]);
      } else {
        assert added[i - |s.log|] in added;
        NewSlot(s, k, w, w', seen, added[i - |s.log|]);
      }
    }
  }

  lemma OthersFit(s: System, s': System, k: WorkKey)
    requires Coherent(s) && LogGrows(s.log, s'.log) && s.now <= s'.now && s.nuid <= s'.nuid && s.seqNo <= s'.seqNo
    requires forall j :: j in s'.worlds && j != k ==> j in s.worlds && s'.worlds[j] == CaughtUp(s.worlds[j], s'.now, s'.nuid, s'.seqNo)
    ensures forall j :: j in s'.worlds && j != k ==> TaskFits(s', j, s'.worlds[j])
  {
    forall j | j in s'.worlds && j != k ensures TaskFits(s', j, s'.worlds[j]) {
      IdleFits(s, s', j, s.worlds[j]);
    }
  }

  lemma TakenLog(s: System, k: WorkKey, w: World, w': World, seen: Option<Event>)
    ensures LogGrows(s.log, TakeTask(s, k, w, w', seen).log)
  {
  }

  lemma MovedFits(s: System, k: WorkKey, w: World, w': World, l: Label, seen: Option<Event>)
    requires Moves(s, k, w, w', l, seen)
    ensures TaskFits(TakeTask(s, k, w, w', seen), k, w')
  {
    TakenLog(s, k, w, w', seen);
    MovedActs(s, TakeTask(s, k, w, w', seen), k, w, w', l, seen);
    MovedCopies(s, k, w, w', l, seen);
  }

  lemma MovedTasks(s: System, k: WorkKey, w: World, w': World, l: Label, seen: Option<Event>)
    requires Coherent(s) && Moves(s, k, w, w', l, seen)
    ensures TasksFit(TakeTask(s, k, w, w', seen))
  {
    TakenLog(s, k, w, w', seen);
    MovedFits(s, k, w, w', l, seen);
    OthersFit(s, TakeTask(s, k, w, w', seen), k);
  }

  lemma MovedCoherent(s: System, k: WorkKey, w: World, w': World, l: Label, seen: Option<Event>)
    requires Coherent(s) && Moves(s, k, w, w', l, seen)
    ensures Coherent(TakeTask(s, k, w, w', seen))
  {
    MovedTasks(s, k, w, w', l, seen);
    MovedSlots(s, k, w, w', l, seen);
    TaskSlotsSeedNothing(s, k, w, w', seen);
    IdsMoved(s, TakeTask(s, k, w, w', seen), k, w');
  }

  lemma AdvanceMoves(s: System, k: WorkKey, l: Label, tool: Contract, seen: Option<Event>)
    requires Coherent(s) && Allowed(s, Move.Advance(k, l, tool, seen))
    ensures Moves(s, k, WorldOf(s, k), Apply(WorldOf(s, k), l), l, seen)
  {
    WorldFits(s, k);
    AllowedEnabled(s, k, l, tool, seen);
    AdvancedStep(WorldOf(s, k), l);
    ScopesStep(WorldOf(s, k), l);
    OwnIds(s, k);
    IdsOwnedStep(WorldOf(s, k), l, ForeignIds(s, k));
  }

  lemma CoherentStep(s: System, m: Move)
    requires Coherent(s) && Allowed(s, m)
    ensures Coherent(Take(s, m))
  {
    if m.Advance? {
      AdvanceMoves(s, m.key, m.l, m.tool, m.seen);
      MovedCoherent(s, m.key, WorldOf(s, m.key), Apply(WorldOf(s, m.key), m.l), m.l, m.seen);
    } else {
      QuietMove(s, m);
    }
  }

  predicate Runs(s: System, ms: seq<Move>)
    decreases |ms|
  {
    ms == [] || (Allowed(s, ms[0]) && Runs(Take(s, ms[0]), ms[1..]))
  }

  function Final(s: System, ms: seq<Move>): System
    requires Runs(s, ms)
    decreases |ms|
  {
    if ms == [] then s else Final(Take(s, ms[0]), ms[1..])
  }

  /** Every history of the deployment: tasks, streams and records fit together, and nothing written is
      ever unwritten. */
  lemma {:induction false} CoherentRun(s: System, ms: seq<Move>)
    requires Coherent(s) && Runs(s, ms)
    ensures Coherent(Final(s, ms)) && Grows(s, Final(s, ms))
    decreases |ms|
  {
    if ms != [] {
      CoherentStep(s, ms[0]);
      GrowsStep(s, ms[0]);
      CoherentRun(Take(s, ms[0]), ms[1..]);
      GrowsTransitive(s, Take(s, ms[0]), Final(s, ms));
    }
  }
}
