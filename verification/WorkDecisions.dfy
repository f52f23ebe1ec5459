/** Why a write of the record was made: what its author had read, from which clock, under which limits.
    Kept for every write of every run, those in flight included. */
module WorkDecisions {
  import opened Wrappers
  import opened Events
  import opened Work
  import opened WorkInvariant
  import opened WorkFrames
  import opened WorkRecord
  import opened WorkTheorems
  import opened TaskSteps

  // ---------------------------------------------------------------- moments of a run

  /** Step i of the run is `l`. */
  predicate Moment(ls: seq<Label>, i: nat, l: Label) {
    i < |ls| && ls[i] == l && Runs(INITIAL, ls[..i])
  }

  /** The world in which step i was taken. */
  function WorldAt(ls: seq<Label>, i: nat): World
    requires i <= |ls| && Runs(INITIAL, ls[..i])
  {
    Final(INITIAL, ls[..i])
  }

  /** Delivery `a` read the record when the clock said `at`. */
  predicate Looked(ls: seq<Label>, a: Aid, at: nat) {
    exists i :: 0 <= i < |ls| && Moment(ls, i, Get(a)) && WorldAt(ls, i).now == at
  }

  predicate AtLoop(w: World, a: Aid) {
    a in w.acts && w.acts[a].pc.Loop?
  }

  predicate AtMissing(w: World, a: Aid) {
    a in w.acts && w.acts[a].pc == Missing
  }

  /** With all outputs published, delivery `a` read the clock before the deadline. */
  predicate RetryChecked(ls: seq<Label>, a: Aid, deadline: nat) {
    exists i :: 0 <= i < |ls| && Moment(ls, i, Judge(a)) && AtLoop(WorldAt(ls, i), a) && WorldAt(ls, i).now < deadline
  }

  /** Without a saved batch, delivery `a` read the clock, and it was not past the deadline. */
  predicate StartChecked(ls: seq<Label>, a: Aid, deadline: nat) {
    exists i :: 0 <= i < |ls| && Moment(ls, i, Judge(a)) && AtMissing(WorldAt(ls, i), a) && WorldAt(ls, i).now <= deadline
  }

  lemma MomentStays(ls: seq<Label>, more: Label, i: nat, l: Label)
    requires Moment(ls, i, l)
    ensures Moment(ls + [more], i, l) && WorldAt(ls + [more], i) == WorldAt(ls, i)
  {
    assert (ls + [more])[..i] == ls[..i];
  }

  lemma HistoryStays(ls: seq<Label>, more: Label, a: Aid, at: nat)
    ensures Looked(ls, a, at) ==> Looked(ls + [more], a, at)
    ensures RetryChecked(ls, a, at) ==> RetryChecked(ls + [more], a, at)
    ensures StartChecked(ls, a, at) ==> StartChecked(ls + [more], a, at)
  {
    if Looked(ls, a, at) {
      var i :| 0 <= i < |ls| && Moment(ls, i, Get(a)) && WorldAt(ls, i).now == at;
      MomentStays(ls, more, i, Get(a));
    }
    if RetryChecked(ls, a, at) {
      var i :| 0 <= i < |ls| && Moment(ls, i, Judge(a)) && AtLoop(WorldAt(ls, i), a) && WorldAt(ls, i).now < at;
      MomentStays(ls, more, i, Judge(a));
    }
    if StartChecked(ls, a, at) {
      var i :| 0 <= i < |ls| && Moment(ls, i, Judge(a)) && AtMissing(WorldAt(ls, i), a) && WorldAt(ls, i).now <= at;
      MomentStays(ls, more, i, Judge(a));
    }
  }

  lemma LastMoment(ls: seq<Label>, l: Label)
    requires Runs(INITIAL, ls)
    ensures Moment(ls + [l], |ls|, l) && WorldAt(ls + [l], |ls|) == Final(INITIAL, ls)
  {
    assert (ls + [l])[..|ls|] == ls;
  }

  // ---------------------------------------------------------------- facts in the world

  /** The batch saved under the task's result key. */
  predicate SavedAs(w: World, t: Task, batch: Batch) {
    t.resultKey.Some? && t.resultKey.value in w.outbox && w.outbox[t.resultKey.value] == batch
  }

  /** The saved batch reports an error that may be retried, and attempts are left. */
  ghost predicate RetryFits(w: World, t: Task, reason: Reason) {
    exists batch: Batch :: SavedAs(w, t, batch)
      && batch.error.Some? && batch.retry && t.attempts < t.maxAttempts && reason == Reason.Handler(batch.error.value)
  }

  /** The saved batch reports an error, and there is a reason not to try again. */
  ghost predicate HandlerFits(w: World, t: Task, reason: Reason) {
    exists batch: Batch :: SavedAs(w, t, batch)
      && batch.error.Some? && reason == Reason.Handler(batch.error.value) && t.nextOutput == |batch.events|
      && (!batch.retry || t.attempts >= t.maxAttempts || w.now >= t.deadline)
  }

  /** A publication pass is due, and none is left. */
  ghost predicate PublicationFits(w: World, t: Task, reason: Reason) {
    exists batch: Batch :: SavedAs(w, t, batch)
      && t.nextOutput < |batch.events| && t.publishAttempts >= t.maxPublishAttempts && reason == PublicationExhausted(t.error)
  }

  predicate ExecutionFits(w: World, t: Task, reason: Reason) {
    (t.attempts >= t.maxAttempts || w.now > t.deadline) && reason == ExecutionExhausted(t.error)
  }

  ghost predicate FailFits(w: World, t: Task, reason: Reason) {
    HandlerFits(w, t, reason) || PublicationFits(w, t, reason) || ExecutionFits(w, t, reason)
  }

  /** A task nobody has worked on, under this replica's limits, for this event, created at this instant. */
  predicate Created(t: Task, cfg: Config, ev: Event, at: nat) {
    && t.attempts == 0 && t.publishAttempts == 0 && t.nextOutput == 0 && t.emitted == 0
    && t.status == Running && t.error == NoError && t.scanId.None? && t.resultKey.None? && t.nextAttempt == 0
    && t.maxAttempts == cfg.maxAttempts && t.maxPublishAttempts == cfg.maxPublishAttempts
    && t.created == at && t.deadline == at + cfg.retryWindow
    && t.origin.tool == cfg.name && t.origin.eventId == ev.id && t.origin.runId == ev.runId
    && t.origin.scope == (if "scope" in ev.meta then ev.meta["scope"] else "")
    && t.origin.input.kind == ev.kind && t.origin.input.value == ev.value && t.origin.input.target == ev.target
  }

  /** The facts behind change `c` of activation `a` over `base`, decided at `at`. */
  ghost predicate Reasoned(ls: seq<Label>, w: World, a: Aid, c: Change, base: Option<Task>, at: nat) {
    && a in w.acts && at <= w.now
    && match c
       case Claim(blank, _, until) =>
         Looked(ls, a, at) && Created(blank, w.acts[a].cfg, w.acts[a].ev, at) && until == at + w.acts[a].cfg.leaseDuration
       case Beat(until) => until == at + w.acts[a].cfg.leaseDuration
       case Start(id) => base.Some? && StartChecked(ls, a, base.value.deadline)
       case Defer(reason, next) => reason.NotPublished? && next >= at
       case Retry(reason, next) => base.Some? && RetryFits(w, base.value, reason) && RetryChecked(ls, a, base.value.deadline) && next >= at
       case Finish(status, reason) => status == Failed ==> base.Some? && FailFits(w, base.value, reason)
       case _ => true
  }

  /** What an activation has found out by the time it decides. */
  ghost predicate Informed(ls: seq<Label>, w: World, a: Aid, act: Act) {
    && (act.pc.Seen? ==> Looked(ls, a, act.pc.at))
    && (act.pc == Starting ==> act.lease.Some? && StartChecked(ls, a, act.lease.value.task.deadline))
    && (act.pc.Failing? ==> act.lease.Some? && (act.pc.reason == OutputMissing || ExecutionFits(w, act.lease.value.task, act.pc.reason)))
    && (act.pc.Closing? ==> act.lease.Some? && ClosingKnows(ls, w, a, act.pc, act.lease.value.task))
  }

  predicate ClosingKnows(ls: seq<Label>, w: World, a: Aid, pc: Pc, t: Task)
    requires pc.Closing?
  {
    if pc.again then pc.batch.error.Some? && pc.batch.retry && t.attempts < t.maxAttempts && RetryChecked(ls, a, t.deadline)
    else pc.batch.error.Some? ==> !pc.batch.retry || t.attempts >= t.maxAttempts || w.now >= t.deadline
  }

  ghost predicate AllReasoned(ls: seq<Label>, w: World) {
    && (forall a :: a in w.acts ==> Informed(ls, w, a, w.acts[a]))
    && (forall wr :: wr in w.writes ==> Reasoned(ls, w, wr.author, wr.change, wr.base, wr.at))
  }

  // ---------------------------------------------------------------- facts stay

  /** Nothing a decision rests on is taken back. */
  predicate Keeps(w: World, w': World) {
    && w.now <= w'.now
    && (forall key :: key in w.outbox ==> key in w'.outbox && w'.outbox[key] == w.outbox[key])
    && (forall a :: a in w.acts ==> a in w'.acts && w'.acts[a].cfg == w.acts[a].cfg && w'.acts[a].ev == w.acts[a].ev)
  }

  lemma FitsStay(w: World, w': World, t: Task, reason: Reason)
    requires Keeps(w, w')
    ensures RetryFits(w, t, reason) ==> RetryFits(w', t, reason)
    ensures FailFits(w, t, reason) ==> FailFits(w', t, reason)
  {
    forall batch: Batch | SavedAs(w, t, batch) ensures SavedAs(w', t, batch) {}
  }

  lemma ReasonedStays(ls: seq<Label>, l: Label, w: World, w': World, a: Aid, c: Change, base: Option<Task>, at: nat)
    requires Keeps(w, w') && Reasoned(ls, w, a, c, base, at)
    ensures Reasoned(ls + [l], w', a, c, base, at)
  {
    HistoryStays(ls, l, a, at);
    if base.Some? {
      HistoryStays(ls, l, a, base.value.deadline);
      if c.Retry? || c.Finish? { FitsStay(w, w', base.value, c.reason); }
    }
  }

  /** The lease may have been renewed, nothing else. */
  predicate SameDecision(act: Act, act': Act) {
    && act'.pc == act.pc && (act.lease.Some? ==> act'.lease.Some?)
    && (act.lease.Some? ==>
          var t, t' := act.lease.value.task, act'.lease.value.task;
          t' == t.(leaseUntil := t'.leaseUntil, updated := t'.updated))
  }

  lemma InformedStays(ls: seq<Label>, l: Label, w: World, w': World, a: Aid, act: Act, act': Act)
    requires w.now <= w'.now && SameDecision(act, act') && Informed(ls, w, a, act)
    ensures Informed(ls + [l], w', a, act')
  {
    if act.pc.Seen? { HistoryStays(ls, l, a, act.pc.at); }
    if act.lease.Some? { HistoryStays(ls, l, a, act.lease.value.task.deadline); }
  }

  // ---------------------------------------------------------------- every decision is reasoned

  /** Offers that need no saved batch. */
  lemma OfferReasoned(ls: seq<Label>, w: World, a: Aid, c: Change, nuid: Id)
    requires a in w.acts && CopyOk(w.acts[a]) && ActSaved(w, w.acts[a]) && Informed(ls, w, a, w.acts[a])
    requires Offers(w.acts[a], c, w.now, nuid) && (w.acts[a].pc.Seen? ==> w.acts[a].pc.at <= w.now)
    ensures Reasoned(ls, w, a, c, BaseOf(w.acts[a], c), ChangeTime(w.acts[a], c, w.now))
  {
    var act := w.acts[a];
    if act.pc.Closing? && !c.Beat? {
      assert SavedAs(w, act.lease.value.task, act.pc.batch);
    } else if act.pc.Entering? && !c.Beat? {
      assert SavedAs(w, act.lease.value.task, act.pc.batch);
    }
  }

  // ---------------------------------------------------------------- every step keeps it

  /** What the clock readings of process tell the activation. */
  lemma JudgeInformed(ls: seq<Label>, w: World, a: Aid)
    requires Runs(INITIAL, ls) && w == Final(INITIAL, ls) && Enabled(w, Judge(a)) && CopyOk(w.acts[a]) && ActSaved(w, w.acts[a])
    ensures Informed(ls + [Judge(a)], Apply(w, Judge(a)), a, NextAct(w, Judge(a)))
  {
    var l := Judge(a);
    LastMoment(ls, l);
    QuietFrame(w, l);
    var now := WorldAt(ls + [l], |ls|).now;
    assert AtLoop(w, a) && now < w.acts[a].lease.value.task.deadline ==> RetryChecked(ls + [l], a, w.acts[a].lease.value.task.deadline);
    assert AtMissing(w, a) && now <= w.acts[a].lease.value.task.deadline ==> StartChecked(ls + [l], a, w.acts[a].lease.value.task.deadline);
  }

  lemma GetInformed(ls: seq<Label>, w: World, a: Aid)
    requires Runs(INITIAL, ls) && w == Final(INITIAL, ls) && Enabled(w, Get(a))
    ensures Informed(ls + [Get(a)], Apply(w, Get(a)), a, NextAct(w, Get(a)))
  {
    LastMoment(ls, Get(a));
  }

  predicate Plain(pc: Pc) {
    !pc.Seen? && pc != Starting && !pc.Failing? && !pc.Closing?
  }

  lemma WonInformed(ls: seq<Label>, l: Label, w: World, w': World, a: Aid, c: Change, rev: nat)
    requires a in w.acts && Offers(w.acts[a], c, w.now, w.nuid) && Informed(ls, w, a, w.acts[a]) && w.now <= w'.now
    ensures Informed(ls + [l], w', a, Won(w.acts[a], c, w.now, rev))
  {
    var act' := Won(w.acts[a], c, w.now, rev);
    if c.Beat? {
      InformedStays(ls, l, w, w', a, w.acts[a], act');
    } else {
      assert Plain(act'.pc);
    }
  }

  lemma LostInformed(ls: seq<Label>, l: Label, w: World, w': World, a: Aid, c: Change)
    requires a in w.acts && Informed(ls, w, a, w.acts[a]) && w.now <= w'.now
    ensures Informed(ls + [l], w', a, Lost(w.acts[a], c))
  {
    if c.Beat? { InformedStays(ls, l, w, w', a, w.acts[a], w.acts[a]); }
  }

  lemma NextPlain(w: World, l: Label)
    requires Enabled(w, l) && Actor(l).Some? && !l.Cas? && !l.Judge? && !l.Get?
    ensures Plain(NextAct(w, l).pc)
  {
  }

  /** The activation that moves. */
  lemma ActorInformed(ls: seq<Label>, w: World, l: Label)
    requires Runs(INITIAL, ls) && w == Final(INITIAL, ls) && Inv(w) && AllReasoned(ls, w)
    requires Enabled(w, l) && Actor(l).Some? && w.now <= Apply(w, l).now
    ensures Informed(ls + [l], Apply(w, l), Actor(l).value, NextAct(w, l))
  {
    if l.Cas? {
      if l.out == Good {
        WonInformed(ls, l, w, Apply(w, l), l.a, l.change, w.seqNo + 1);
      } else {
        LostInformed(ls, l, w, Apply(w, l), l.a, l.change);
      }
    } else if l.Judge? {
      assert CopyOk(w.acts[l.a]);
      JudgeInformed(ls, w, l.a);
    } else if l.Get? {
      GetInformed(ls, w, l.a);
    } else {
      NextPlain(w, l);
    }
  }

  lemma ActsAfter(w: World, l: Label)
    requires Enabled(w, l)
    ensures Apply(w, l).acts == if Actor(l).Some? then w.acts[Actor(l).value := NextAct(w, l)] else w.acts
  {
    if l.LandWrite? { LandFrame(w, l.w); }
  }

  /** What a step does to the facts decisions rest on. */
  lemma KeepsStep(w: World, l: Label)
    requires SavedOk(w) && Enabled(w, l)
    ensures Keeps(w, Apply(w, l))
  {
    OutboxStep(w, l);
    LaterStep(w, l);
    RememberedStep(w, l);
  }

  lemma ActsReasoned(ls: seq<Label>, w: World, l: Label)
    requires Runs(INITIAL, ls) && w == Final(INITIAL, ls) && Inv(w) && AllReasoned(ls, w) && Enabled(w, l)
    ensures var w' := Apply(w, l); forall a :: a in w'.acts ==> Informed(ls + [l], w', a, w'.acts[a])
  {
    KeepsStep(w, l);
    ActsAfter(w, l);
    var w' := Apply(w, l);
    if Actor(l).Some? { ActorInformed(ls, w, l); }
    forall a | a in w'.acts && Actor(l) != Some(a) ensures Informed(ls + [l], w', a, w'.acts[a]) {
      InformedStays(ls, l, w, w', a, w.acts[a], w'.acts[a]);
    }
  }

  /** The only new write in flight is that of a refused request. */
  lemma NewWrite(w: World, l: Label, wr: Write)
    requires Enabled(w, l) && wr in Apply(w, l).writes && wr !in w.writes
    ensures l.Cas? && l.out.Bad?
    ensures wr == Write(l.a, Expected(w.acts[l.a], l.change), BaseOf(w.acts[l.a], l.change), l.change, ChangeTime(w.acts[l.a], l.change, w.now))
  {
    if l.Cas? {
      NewCasWrite(w, l.a, l.change, l.out, wr);
    }
  }

  lemma NewCasWrite(w: World, a: Aid, c: Change, out: Outcome, wr: Write)
    requires Enabled(w, Cas(a, c, out)) && wr in Apply(w, Cas(a, c, out)).writes && wr !in w.writes
    ensures out.Bad? && wr == Write(a, Expected(w.acts[a], c), BaseOf(w.acts[a], c), c, ChangeTime(w.acts[a], c, w.now))
  {
    if out == Good { GoodFrame(w, a, c); } else { BadFrame(w, a, c, out.sent); }
  }

  lemma OfferedReasoned(ls: seq<Label>, w: World, a: Aid, c: Change, out: Outcome)
    requires Inv(w) && AllReasoned(ls, w) && Enabled(w, Cas(a, c, out))
    ensures Reasoned(ls, w, a, c, BaseOf(w.acts[a], c), ChangeTime(w.acts[a], c, w.now))
  {
    assert CopyOk(w.acts[a]);
    if w.acts[a].pc.Seen? { assert SeenOk(w, w.acts[a].pc.entry, w.acts[a].pc.at); }
    OfferReasoned(ls, w, a, c, w.nuid);
  }

  lemma WritesReasoned(ls: seq<Label>, w: World, l: Label)
    requires Runs(INITIAL, ls) && w == Final(INITIAL, ls) && Inv(w) && AllReasoned(ls, w) && Enabled(w, l)
    ensures var w' := Apply(w, l); forall wr :: wr in w'.writes ==> Reasoned(ls + [l], w', wr.author, wr.change, wr.base, wr.at)
  {
    KeepsStep(w, l);
    var w' := Apply(w, l);
    forall wr | wr in w'.writes ensures Reasoned(ls + [l], w', wr.author, wr.change, wr.base, wr.at) {
      if wr !in w.writes {
        NewWrite(w, l, wr);
        OfferedReasoned(ls, w, l.a, l.change, l.out);
      }
      ReasonedStays(ls, l, w, w', wr.author, wr.change, wr.base, wr.at);
    }
  }

  lemma StepReasoned(ls: seq<Label>, w: World, l: Label)
    requires Runs(INITIAL, ls) && w == Final(INITIAL, ls) && Inv(w) && AllReasoned(ls, w) && Enabled(w, l)
    ensures AllReasoned(ls + [l], Apply(w, l))
  {
    ActsReasoned(ls, w, l);
    WritesReasoned(ls, w, l);
  }

  /** The first i steps, and one more. */
  lemma PrefixRun(ls: seq<Label>, i: nat)
    requires i < |ls| && Runs(INITIAL, ls[..i]) && Runs(Final(INITIAL, ls[..i]), ls[i..])
    ensures Enabled(Final(INITIAL, ls[..i]), ls[i]) && ls[..i] + [ls[i]] == ls[..i + 1]
    ensures Runs(INITIAL, ls[..i + 1]) && Runs(Final(INITIAL, ls[..i + 1]), ls[i + 1..])
    ensures Final(INITIAL, ls[..i + 1]) == Apply(Final(INITIAL, ls[..i]), ls[i])
  {
    assert ls[i..][0] == ls[i] && ls[i..][1..] == ls[i + 1..];
    assert ls[..i] + [ls[i]] == ls[..i + 1];
    RunSnoc(INITIAL, ls[..i], ls[i]);
  }

  lemma PrefixNext(ls: seq<Label>, l: Label, next: seq<Label>)
    requires Runs(INITIAL, ls) && Enabled(Final(INITIAL, ls), l) && next == ls + [l] && Runs(INITIAL, next)
    requires Final(INITIAL, next) == Apply(Final(INITIAL, ls), l) && AllReasoned(ls, Final(INITIAL, ls))
    ensures AllReasoned(next, Final(INITIAL, next))
  {
    EveryRun(ls);
    StepReasoned(ls, Final(INITIAL, ls), l);
  }

  lemma {:induction false} PrefixReasoned(ls: seq<Label>, i: nat)
    requires i <= |ls| && Runs(INITIAL, ls)
    ensures Runs(INITIAL, ls[..i]) && Runs(Final(INITIAL, ls[..i]), ls[i..])
    ensures AllReasoned(ls[..i], Final(INITIAL, ls[..i]))
  {
    if i == 0 {
      assert ls[0..] == ls;
    } else {
      PrefixReasoned(ls, i - 1);
      PrefixRun(ls, i - 1);
      PrefixNext(ls[..i - 1], ls[i - 1], ls[..i]);
    }
  }

  /** In every run, every decision is reasoned. */
  lemma EveryReason(ls: seq<Label>)
    requires Runs(INITIAL, ls)
    ensures AllReasoned(ls, Final(INITIAL, ls))
  {
    PrefixReasoned(ls, |ls|);
    assert ls[..|ls|] == ls;
  }

  /** Step `l` writes change `c` of activation `a`. */
  predicate WritesAs(w: World, l: Label, a: Aid, c: Change, at: nat) {
    || (l == Cas(a, c, Good) && a in w.acts && BaseOf(w.acts[a], c) == TaskOf(w) && at == ChangeTime(w.acts[a], c, w.now))
    || (l.LandWrite? && l.w in w.writes && l.w == Write(a, l.w.rev, TaskOf(w), c, at))
  }

  lemma Writer(w: World, l: Label) returns (a: Aid, c: Change, at: nat)
    requires Inv(w) && Enabled(w, l) && Apply(w, l).kv != w.kv
    ensures WritesAs(w, l, a, c, at) && Justified(w, c) && (w.kv.Some? || c.Claim?)
    ensures Apply(w, l).kv == Some(Record(Changed(TaskOf(w), c, at), w.seqNo + 1))
  {
    if l.Cas? {
      a, c := l.a, l.change;
      at := ChangeTime(w.acts[a], c, w.now);
      CasWriter(w, a, c, l.out);
    } else if l.LandWrite? {
      a, c, at := l.w.author, l.w.change, l.w.at;
      LandWriter(w, l.w);
    } else {
      GainStep(w, l);
    }
  }

  lemma CasWriter(w: World, a: Aid, c: Change, out: Outcome)
    requires Grounds(w) && Enabled(w, Cas(a, c, out)) && Apply(w, Cas(a, c, out)).kv != w.kv
    ensures WritesAs(w, Cas(a, c, out), a, c, ChangeTime(w.acts[a], c, w.now)) && Justified(w, c) && (w.kv.Some? || c.Claim?)
    ensures Apply(w, Cas(a, c, out)).kv == Some(Record(Changed(TaskOf(w), c, ChangeTime(w.acts[a], c, w.now)), w.seqNo + 1))
  {
    RecordCas(w, a, c, out);
    if out == Good { OfferJustified(w, a, c); }
  }

  lemma LandWriter(w: World, wr: Write)
    requires Fenced(w) && PendingOk(w) && Enabled(w, LandWrite(wr))
    ensures WritesAs(w, LandWrite(wr), wr.author, wr.change, wr.at) && Justified(w, wr.change) && (w.kv.Some? || wr.change.Claim?)
    ensures Apply(w, LandWrite(wr)).kv == Some(Record(Changed(TaskOf(w), wr.change, wr.at), w.seqNo + 1))
  {
    RecordLand(w, wr);
    assert WriteOk(w, wr);
  }

  /** The change by which a step wrote the record, its author and its time. */
  lemma WriteReasoned(ls: seq<Label>, w: World, l: Label) returns (a: Aid, c: Change, at: nat)
    requires Runs(INITIAL, ls) && w == Final(INITIAL, ls) && Enabled(w, l) && Apply(w, l).kv != w.kv
    ensures Reasoned(ls, w, a, c, TaskOf(w), at) && Justified(w, c) && (w.kv.Some? || c.Claim?)
    ensures Apply(w, l).kv == Some(Record(Changed(TaskOf(w), c, at), w.seqNo + 1))
  {
    EveryReason(ls);
    EveryRun(ls);
    a, c, at := Writer(w, l);
    WriterReasoned(ls, w, l, a, c, at);
  }

  lemma WriterReasoned(ls: seq<Label>, w: World, l: Label, a: Aid, c: Change, at: nat)
    requires Inv(w) && AllReasoned(ls, w) && Enabled(w, l) && WritesAs(w, l, a, c, at)
    ensures Reasoned(ls, w, a, c, TaskOf(w), at)
  {
    if l.Cas? { OfferedReasoned(ls, w, a, c, Good); }
  }
}
