/** What the work protocol promises, for every run of any number of replicas. */
module WorkTheorems {
  import opened Wrappers
  import opened Events
  import opened Work
  import opened WorkInvariant
  import opened WorkFrames
  import opened WorkFencing
  import opened WorkRecord
  import opened WorkStream
  import opened WorkCounts
  import opened WorkLeases

  // ---------------------------------------------------------------- the invariant holds in every run

  lemma InitialCounts()
    ensures CallsOk(INITIAL) && BudgetOk(INITIAL) && Accounted(INITIAL)
  {
    assert Distinct(INITIAL.pub) == {};
    forall key: Id ensures Ready(INITIAL, key) == {} {}
    assert ArmedActs(INITIAL) == {};
  }

  lemma InitialInv()
    ensures Inv(INITIAL)
  {
    InitialCounts();
  }

  lemma InvStep(w: World, l: Label)
    requires Inv(w) && Enabled(w, l)
    ensures Inv(Apply(w, l))
  {
    FencedStep(w, l);
    CopiesStep(w, l);
    IdsStep(w, l);
    PendingStep(w, l);
    TaskStep(w, l);
    SavedStep(w, l);
    StreamStep(w, l);
    AccountedStep(w, l);
    CallsStep(w, l);
    BudgetStep(w, l);
    ExclusiveStep(w, l);
  }

  lemma {:induction false} InvRun(w: World, ls: seq<Label>)
    requires Inv(w) && Runs(w, ls)
    ensures Inv(Final(w, ls))
    decreases |ls|
  {
    if ls != [] {
      InvStep(w, ls[0]);
      InvRun(Apply(w, ls[0]), ls[1..]);
    }
  }

  lemma EveryRun(ls: seq<Label>)
    requires Runs(INITIAL, ls)
    ensures Inv(Final(INITIAL, ls))
  {
    InitialInv();
    InvRun(INITIAL, ls);
  }

  // ---------------------------------------------------------------- how the record changes

  /** One justified write of the record, or none. */
  ghost predicate RecordMove(w: World, w': World, c: Option<Change>, at: nat) {
    if c.None? then w'.kv == w.kv
    else
      && Justified(w, c.value) && (w.kv.Some? || c.value.Claim?)
      && w'.kv == Some(Record(Changed(TaskOf(w), c.value, at), w.seqNo + 1))
  }

  /** Every step leaves the record alone or writes one justified change over it. */
  lemma RecordStep(w: World, l: Label) returns (c: Option<Change>, at: nat)
    requires Inv(w) && Enabled(w, l)
    ensures RecordMove(w, Apply(w, l), c, at)
  {
    if l.Cas? {
      at := ChangeTime(w.acts[l.a], l.change, w.now);
      c := if l.out == Good then Some(l.change) else None;
      RecordCas(w, l.a, l.change, l.out);
    } else if l.LandWrite? {
      c, at := Some(l.w.change), l.w.at;
      RecordLand(w, l.w);
    } else {
      c, at := None, 0;
      GainStep(w, l);
    }
  }

  lemma RecordCas(w: World, a: Aid, c: Change, out: Outcome)
    requires Grounds(w) && Enabled(w, Cas(a, c, out))
    ensures RecordMove(w, Apply(w, Cas(a, c, out)), if out == Good then Some(c) else None, ChangeTime(w.acts[a], c, w.now))
  {
    if out == Good {
      OfferJustified(w, a, c);
      GoodFrame(w, a, c);
    } else {
      BadFrame(w, a, c, out.sent);
    }
  }

  lemma RecordLand(w: World, wr: Write)
    requires Fenced(w) && PendingOk(w) && Enabled(w, LandWrite(wr))
    ensures RecordMove(w, Apply(w, LandWrite(wr)), Some(wr.change), wr.at)
  {
    LandFrame(w, wr);
    assert WriteOk(w, wr);
  }

  /** Edges of the documented state diagram. */
  predicate Edge(from: Status, to: Status) {
    || from == to
    || (from == Running && (to == Publishing || to == Failed))
    || (from == Publishing && (to == Completed || to == Failed || to == RetryWait))
    || (from == RetryWait && (to == Running || to == Failed))
  }

  /** A field that was given stays as it is; a missing one may be filled in. */
  predicate Stays(field: string, field': string) {
    field == "" || field' == field
  }

  predicate SameTarget(t: Target, t': Target) {
    && Stays(t.host, t'.host) && Stays(t.name, t'.name) && Stays(t.nameRole, t'.nameRole) && (t.port == 0 || t'.port == t.port)
    && Stays(t.proto, t'.proto) && Stays(t.url, t'.url) && Stays(t.sni, t'.sni) && Stays(t.httpHost, t'.httpHost)
  }

  predicate SameOrigin(o: Origin, o': Origin) {
    && o'.tool == o.tool && o'.eventId == o.eventId && o'.input.kind == o.input.kind && o'.input.value == o.input.value
    && Stays(o.runId, o'.runId) && Stays(o.scope, o'.scope) && SameTarget(o.input.target, o'.input.target)
  }

  /** What no write changes: budgets and identity are fixed when the record is created, except that an
      empty field of the identity may be filled in. */
  predicate SameBudget(t: Task, t': Task) {
    && t'.maxAttempts == t.maxAttempts && t'.maxPublishAttempts == t.maxPublishAttempts
    && t'.deadline == t.deadline && t'.created == t.created
    && SameOrigin(t.origin, t'.origin)
    && t.attempts <= t'.attempts && t.emitted <= t'.emitted
  }

  /** One step of the record: the status follows the diagram, the budget is kept, an attempt is spent
      only from running or retry_wait, and a terminal task only has its timestamp renewed. */
  predicate Progress(t: Task, t': Task) {
    && Edge(t.status, t'.status)
    && SameBudget(t, t')
    && (t'.attempts > t.attempts ==> t.status == Running || t.status == RetryWait)
    && (Terminal(t) ==> t' == t.(updated := t'.updated))
  }

  lemma MoveProgress(w: World, w': World, c: Option<Change>, at: nat)
    requires TaskOk(w) && w.kv.Some? && RecordMove(w, w', c, at)
    ensures w'.kv.Some? && Progress(w.kv.value.task, w'.kv.value.task)
  {
  }

  lemma StatusStep(w: World, l: Label)
    requires Inv(w) && Enabled(w, l) && w.kv.Some?
    ensures Apply(w, l).kv.Some? && Progress(w.kv.value.task, Apply(w, l).kv.value.task)
  {
    var c, at := RecordStep(w, l);
    MoveProgress(w, Apply(w, l), c, at);
  }

  /** The budgets of a record last as long as the record. */
  lemma {:induction false} BudgetsFixed(w: World, ls: seq<Label>)
    requires Inv(w) && Runs(w, ls) && w.kv.Some?
    ensures Final(w, ls).kv.Some? && SameBudget(w.kv.value.task, Final(w, ls).kv.value.task)
    decreases |ls|
  {
    if ls != [] {
      StatusStep(w, ls[0]);
      InvStep(w, ls[0]);
      BudgetsFixed(Apply(w, ls[0]), ls[1..]);
    }
  }

  /** Once a task is terminal nothing but the heartbeat's timestamp ever changes. */
  lemma {:induction false} TerminalFrozen(w: World, ls: seq<Label>)
    requires Inv(w) && Runs(w, ls) && w.kv.Some? && Terminal(w.kv.value.task)
    ensures var w' := Final(w, ls);
      && w'.kv.Some?
      && w'.kv.value.task == w.kv.value.task.(updated := w'.kv.value.task.updated)
    decreases |ls|
  {
    if ls != [] {
      StatusStep(w, ls[0]);
      InvStep(w, ls[0]);
      TerminalFrozen(Apply(w, ls[0]), ls[1..]);
    }
  }

  // ---------------------------------------------------------------- leases

  /** Of all handles ever issued, at most one carries the current revision. */
  lemma OneCurrentHandle(ls: seq<Label>, a: Aid, b: Aid)
    requires Runs(INITIAL, ls)
    requires var w := Final(INITIAL, ls);
      && a in w.acts && b in w.acts && w.acts[a].lease.Some? && w.acts[b].lease.Some?
      && w.acts[a].lease.value.rev == CurrentRev(w) && w.acts[b].lease.value.rev == CurrentRev(w)
    ensures a == b
    ensures var w := Final(INITIAL, ls); w.kv.Some? && w.acts[a].lease.value.task == w.kv.value.task
  {
    EveryRun(ls);
    assert HandleOk(Final(INITIAL, ls), Final(INITIAL, ls).acts[a].lease.value);
  }

  predicate Overtaken(w: World, a: Aid, l: Lease) {
    a in w.acts && w.acts[a].lease == Some(l) && l.rev < CurrentRev(w)
  }

  /** Step `l` writes the record on behalf of activation `a`'s handle at revision `rev`. */
  predicate WritesFor(l: Label, a: Aid, rev: nat) {
    (l.Cas? && l.a == a && l.out == Good) || (l.LandWrite? && l.w.rev == rev)
  }

  lemma OvertakenStep(w: World, l: Label, a: Aid, lease: Lease)
    requires Inv(w) && Enabled(w, l) && Overtaken(w, a, lease)
    ensures Overtaken(Apply(w, l), a, lease)
    ensures !WritesFor(l, a, lease.rev)
  {
    assert CopyOk(w.acts[a]);
    if l.Cas? {
      OvertakenCas(w, l.a, l.change, l.out, a, lease);
    } else if l.LandWrite? {
      LandFrame(w, l.w);
    } else {
      OvertakenElse(w, l, a, lease);
    }
  }

  lemma OvertakenCas(w: World, b: Aid, c: Change, out: Outcome, a: Aid, lease: Lease)
    requires Fenced(w) && Enabled(w, Cas(b, c, out)) && Overtaken(w, a, lease) && CopyOk(w.acts[a])
    ensures Overtaken(Apply(w, Cas(b, c, out)), a, lease) && !(a == b && out == Good)
  {
    if out == Good { GoodFrame(w, b, c); } else { BadFrame(w, b, c, out.sent); }
  }

  lemma OvertakenElse(w: World, l: Label, a: Aid, lease: Lease)
    requires Enabled(w, l) && !l.Cas? && !l.LandWrite? && Overtaken(w, a, lease)
    ensures Overtaken(Apply(w, l), a, lease)
  {
    if Quiet(l) {
      QuietFrame(w, l);
      QuietHandle(w, l);
    } else if l.Put? || l.Publish? {
      StoreHandle(w, l);
    }
  }

  /** An overtaken handle stays overtaken and never writes the record again: not now, not late. */
  lemma {:induction false} OvertakenNeverWrites(w: World, ls: seq<Label>, a: Aid, lease: Lease)
    requires Inv(w) && Runs(w, ls) && Overtaken(w, a, lease)
    ensures Overtaken(Final(w, ls), a, lease)
    ensures forall l :: l in ls ==> !WritesFor(l, a, lease.rev)
    decreases |ls|
  {
    if ls != [] {
      OvertakenStep(w, ls[0], a, lease);
      InvStep(w, ls[0]);
      OvertakenNeverWrites(Apply(w, ls[0]), ls[1..], a, lease);
      assert forall l :: l in ls ==> l == ls[0] || l in ls[1..];
    }
  }

  // ---------------------------------------------------------------- budgets

  /** Handler calls never exceed the attempts durably spent, nor those the budget set at creation. */
  lemma ExecutionBudget(ls: seq<Label>)
    requires Runs(INITIAL, ls)
    ensures WithinBudget(Final(INITIAL, ls))
  {
    EveryRun(ls);
    BudgetAt(Final(INITIAL, ls));
  }

  predicate WithinBudget(w: World) {
    if w.kv.None? then w.invocations == 0 && w.passes == 0
    else
      var t := w.kv.value.task;
      && w.invocations <= t.attempts <= t.maxAttempts
      && w.passes <= t.attempts * t.maxPublishAttempts <= t.maxAttempts * t.maxPublishAttempts
  }

  lemma BudgetAt(w: World)
    requires BudgetOk(w) && TaskOk(w)
    ensures WithinBudget(w)
  {
    if w.kv.Some? {
      var t := w.kv.value.task;
      PassProduct(w.passes, t.attempts, t.maxAttempts, t.publishAttempts, t.maxPublishAttempts);
    }
  }

  lemma PassProduct(passes: nat, n: nat, max: nat, p: nat, maxP: nat)
    requires n <= max && p <= maxP && (if n == 0 then passes == 0 else passes <= (n - 1) * maxP + p)
    ensures passes <= n * maxP <= max * maxP
  {
    if n > 0 { assert n * maxP == (n - 1) * maxP + maxP; }
    assert max * maxP == n * maxP + (max - n) * maxP;
  }

  /** What batch `key` may have cost in publish calls. */
  predicate BatchBudget(w: World, key: Id) {
    if key !in w.outbox || w.kv.None? then Calls(w, key) == 0
    else
      var n := |w.outbox[key].events|;
      var t := w.kv.value.task;
      && (n == 0 ==> Calls(w, key) == 0)
      && Calls(w, key) <= n + t.maxPublishAttempts
      && (n > 0 && t.status == Completed ==> Calls(w, key) <= n + t.maxPublishAttempts - 1)
  }

  /** Over all replicas, stale ones included, a saved batch of n outputs costs at most
      n + MaxPublishAttempts publish calls, one fewer once all of it is published; and no more copies
      of its outputs are on the stream than calls were made. */
  lemma PublicationBound(ls: seq<Label>, key: Id)
    requires Runs(INITIAL, ls)
    ensures BatchBudget(Final(INITIAL, ls), key)
    ensures Copies(Final(INITIAL, ls).pub, key) <= Calls(Final(INITIAL, ls), key)
  {
    EveryRun(ls);
    BatchAt(Final(INITIAL, ls), key);
  }

  lemma BatchAt(w: World, key: Id)
    requires CallsOk(w) && TaskOk(w)
    ensures BatchBudget(w, key) && Copies(w.pub, key) <= Calls(w, key)
  {
    assert Calls(w, key) + |Ready(w, key)| <= Cap(w, key);
    assert Copies(w.pub, key) + |Sends(w, key)| <= Calls(w, key);
  }

  // ---------------------------------------------------------------- outputs

  /** The number of distinct outputs on the stream is `emitted`, or one more while an index write is due. */
  predicate ExactlyAccounted(w: World) {
    && Emitted(w) <= |Distinct(w.pub)| <= Emitted(w) + 1
    && (w.kv.Some? && w.kv.value.task.status in {Running, RetryWait, Completed} ==> |Distinct(w.pub)| == Emitted(w))
  }

  lemma ExactAccounting(ls: seq<Label>)
    requires Runs(INITIAL, ls)
    ensures ExactlyAccounted(Final(INITIAL, ls))
  {
    EveryRun(ls);
    AccountedAt(Final(INITIAL, ls));
  }

  lemma AccountedAt(w: World)
    requires Accounted(w) && StreamOk(w) && TaskOk(w)
    ensures ExactlyAccounted(w)
  {
    if w.kv.Some? && w.kv.value.task.resultKey.Some? {
      var x := Copy(w.kv.value.task.resultKey.value, w.kv.value.task.nextOutput);
      assert x in w.pub ==> CopyFits(w, x);
    }
  }

  /** First copies appear in batch order, and only of saved outputs. */
  lemma FirstCopiesInOrder(ls: seq<Label>, p: nat, j: nat)
    requires Runs(INITIAL, ls) && p < |Final(INITIAL, ls).pub| && j < Final(INITIAL, ls).pub[p].index
    ensures var w := Final(INITIAL, ls);
      && w.pub[p].key in w.outbox && w.pub[p].index < |w.outbox[w.pub[p].key].events|
      && exists q :: 0 <= q < p && w.pub[q] == Copy(w.pub[p].key, j)
  {
    EveryRun(ls);
    var w := Final(INITIAL, ls);
    assert CopyFits(w, w.pub[p]);
    assert Copy(w.pub[p].key, j) in w.pub[..p];
  }

  /** A completed task succeeded, saved its batch, and every output of the batch is on the stream. */
  lemma CompletedMeansPublished(ls: seq<Label>)
    requires Runs(INITIAL, ls)
    requires var w := Final(INITIAL, ls); w.kv.Some? && w.kv.value.task.status == Completed
    ensures var w := Final(INITIAL, ls); var t := w.kv.value.task;
      && t.error == NoError && t.resultKey.Some? && t.resultKey.value in w.outbox
      && w.outbox[t.resultKey.value].error.None?
      && t.nextOutput == |w.outbox[t.resultKey.value].events|
      && forall j :: 0 <= j < |w.outbox[t.resultKey.value].events| ==> Copy(t.resultKey.value, j) in w.pub
  {
    EveryRun(ls);
  }

  /** Publishing means the batch is saved; so the branch that fails a task because its saved output
      is missing is dead. */
  lemma PublishingMeansSaved(ls: seq<Label>)
    requires Runs(INITIAL, ls)
    ensures var w := Final(INITIAL, ls);
      && (w.kv.Some? && w.kv.value.task.status == Publishing ==>
            w.kv.value.task.resultKey.Some? && w.kv.value.task.resultKey.value in w.outbox)
      && (forall a :: a in w.acts ==> w.acts[a].pc != Failing(OutputMissing))
  {
    EveryRun(ls);
  }

  /** An outbox entry is never replaced or removed. */
  lemma {:induction false} OutboxWrittenOnce(w: World, ls: seq<Label>)
    requires Inv(w) && Runs(w, ls)
    ensures Gained(w, Final(w, ls))
    decreases |ls|
  {
    if ls != [] {
      OutboxStep(w, ls[0]);
      InvStep(w, ls[0]);
      OutboxWrittenOnce(Apply(w, ls[0]), ls[1..]);
    }
  }

  lemma OutboxStep(w: World, l: Label)
    requires SavedOk(w) && Enabled(w, l)
    ensures Gained(w, Apply(w, l))
  {
    if l.Cas? {
      if l.out == Good { GoodFrame(w, l.a, l.change); } else { BadFrame(w, l.a, l.change, l.out.sent); }
    } else if l.LandWrite? {
      LandFrame(w, l.w);
    } else {
      GainStep(w, l);
    }
  }
}
