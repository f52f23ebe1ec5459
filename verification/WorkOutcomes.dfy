/** What one undisturbed delivery does to a task, field by field: when the handler runs, what is published,
    and how the task ends. */
module WorkOutcomes {
  import opened Wrappers
  import opened Events
  import opened Work
  import opened WorkInvariant
  import opened WorkTheorems
  import opened WorkProgress
  import opened WorkDecisions
  import opened WorkChanges

  /** Nobody holds the task, and it is not over. */
  predicate Idle(kv: Option<Record>, now: nat) {
    kv.Some? ==>
      var t := kv.value.task;
      t.status != Completed && t.status != Failed && t.leaseUntil <= now && t.nextAttempt <= now
  }

  /** The task fails, and nothing more is published. */
  predicate Abandoned(t: Task, t': Task, reason: Reason, acked: bool) {
    && t'.status == Failed && t'.error == reason && acked
    && t'.emitted == t.emitted && t'.nextOutput == t.nextOutput && t'.resultKey == t.resultKey && t'.publishAttempts == t.publishAttempts
  }

  /** The outputs of the saved batch from `index` on are published, in one pass, and the batch's error decides
      what becomes of the task. */
  predicate Delivered(t: Task, key: Id, index: nat, passes: nat, batch: Batch, now: nat, t': Task, acked: bool) {
    var n := |batch.events|;
    && index <= n && t'.nextOutput == n && t'.emitted == t.emitted + (n - index)
    && t'.publishAttempts == (if index < n then passes + 1 else passes)
    && (t'.status == RetryWait <==> batch.error.Some? && batch.retry && t'.attempts < t.maxAttempts && now < t.deadline)
    && (t'.status == Completed <==> batch.error.None?)
    && (t'.status == Failed <==> batch.error.Some? && (!batch.retry || t'.attempts >= t.maxAttempts || now >= t.deadline))
    && (acked <==> t'.status == Completed || t'.status == Failed)
    && t'.error == (if batch.error.Some? then Reason.Handler(batch.error.value) else NoError)
    && t'.resultKey == (if t'.status == RetryWait then None else Some(key))
  }

  /** From the record `t` and the outbox to the record `t'` and the outbox after one delivery, for which the
      handler, if it is called, returns `handled`. */
  predicate Outcome(t: Task, outbox: map<Id, Batch>, now: nat, handled: Batch, id: Id, t': Task, outbox': map<Id, Batch>, acked: bool) {
    && t'.maxAttempts == t.maxAttempts && t'.maxPublishAttempts == t.maxPublishAttempts && t'.deadline == t.deadline && t'.created == t.created
    && if t.resultKey.Some? && t.resultKey.value in outbox then
         var batch := outbox[t.resultKey.value];
         && outbox' == outbox && t'.attempts == t.attempts && t'.scanId == t.scanId
         && if t.nextOutput < |batch.events| && t.publishAttempts >= t.maxPublishAttempts
            then Abandoned(t, t', PublicationExhausted(t.error), acked)
            else Delivered(t, t.resultKey.value, t.nextOutput, t.publishAttempts, batch, now, t', acked)
       else if t.status == Publishing then
         outbox' == outbox && t'.attempts == t.attempts && Abandoned(t, t', OutputMissing, acked)
       else if t.attempts >= t.maxAttempts || now > t.deadline then
         outbox' == outbox && t'.attempts == t.attempts && Abandoned(t, t', ExecutionExhausted(t.error), acked)
       else
         && outbox' == outbox[id := handled] && t'.attempts == t.attempts + 1 && t'.scanId == Some(id)
         && Delivered(t, id, 0, 0, handled, now, t', acked)
  }

  lemma SettleOutcome(t: Task, key: Id, batch: Batch, now: nat)
    requires t.resultKey == Some(key) && t.nextOutput <= |batch.events|
    ensures var t' := Settle(t.(status := Publishing), batch, now); var acked := t'.status != RetryWait;
      if t.nextOutput < |batch.events| && t.publishAttempts >= t.maxPublishAttempts
      then Abandoned(t, t', PublicationExhausted(t.error), acked)
      else Delivered(t, key, t.nextOutput, t.publishAttempts, batch, now, t', acked)
  {
  }

  /** The index of a saved batch never runs past its end. */
  predicate IndexFits(t: Task, outbox: map<Id, Batch>) {
    t.resultKey.Some? && t.resultKey.value in outbox ==> t.nextOutput <= |outbox[t.resultKey.value].events|
  }

  lemma ServeOutcome(t: Task, outbox: map<Id, Batch>, now: nat, handled: Batch, id: Id)
    requires t.status != Completed && t.status != Failed && t.maxPublishAttempts >= 1 && IndexFits(t, outbox)
    ensures var s := Serve(Shelf(t, outbox), handled, id, now); Outcome(t, outbox, now, handled, id, s.task, s.outbox, Terminal(s.task))
  {
    if t.resultKey.Some? && t.resultKey.value in outbox {
      SettleOutcome(t, t.resultKey.value, outbox[t.resultKey.value], now);
    } else if t.status != Publishing && !(t.attempts >= t.maxAttempts || now > t.deadline) {
      SettleOutcome(WorkProgress.Attempted(t, id), id, handled, now);
    }
  }

  /** Lease, backoff, timestamp and identity play no part. */
  lemma OutcomeCore(t: Task, u: Task, outbox: map<Id, Batch>, now: nat, handled: Batch, id: Id, t': Task, u': Task, outbox': map<Id, Batch>, acked: bool)
    requires Outcome(t, outbox, now, handled, id, t', outbox', acked)
    requires Core(u) == Core(t.(origin := u.origin)) && Core(u') == Core(t')
    ensures Outcome(u, outbox, now, handled, id, u', outbox', acked)
  {
  }

  /** An undisturbed delivery in world `w`, of an event to a task that is idle, which leaves the world `w'`
      and replies `reply`. */
  ghost predicate CalmOutcome(w: World, cfg: Config, ev: Event, handled: Batch, id: Id, w': World, acked: bool) {
    && w'.kv.Some?
    && exists t :: (if w.kv.Some? then t == w.kv.value.task else Created(t, cfg, ev, w.now))
                   && Outcome(t, w.outbox, w.now, handled, id, w'.kv.value.task, w'.outbox, acked)
  }

  /** In a reachable world the limits admit at least one pass. */
  lemma Reachable(ls: seq<Label>, w: World)
    requires Runs(INITIAL, ls) && w == Final(INITIAL, ls) && w.kv.Some?
    ensures w.kv.value.task.maxPublishAttempts >= 1 && IndexFits(w.kv.value.task, w.outbox)
  {
    BudgetsGiven(ls);
    EveryRun(ls);
    var a :| a in w.acts && LimitsOf(w.kv.value.task, w.acts[a].cfg);
    assert CopyOk(w.acts[a]);
  }

  /** As long as attempts are left and the window after its creation is open, an undisturbed delivery of an
      interrupted task runs the handler and saves what it returns, however short its leases are. */
  lemma InterruptedRuns(ls: seq<Label>, w: World, cfg: Config, ev: Event, handled: Batch, id: Id, w': World, acked: bool, window: nat)
    requires Runs(INITIAL, ls) && w == Final(INITIAL, ls) && w.kv.Some? && CalmOutcome(w, cfg, ev, handled, id, w', acked)
    requires w.kv.value.task.status != Publishing && (w.kv.value.task.resultKey.Some? ==> w.kv.value.task.resultKey.value !in w.outbox)
    requires w.kv.value.task.attempts < w.kv.value.task.maxAttempts
    requires (forall a :: a in w.acts ==> w.acts[a].cfg.retryWindow == window) && w.now <= w.kv.value.task.created + window
    ensures w'.outbox == w.outbox[id := handled] && w'.kv.value.task.attempts == w.kv.value.task.attempts + 1
    ensures w'.kv.value.task.nextOutput == |handled.events|
  {
    BudgetsGiven(ls);
    var a :| a in w.acts && LimitsOf(w.kv.value.task, w.acts[a].cfg);
  }

  /** What a claim gives out at instant `now`: a lease of the replica's full duration on the task as it is
      recorded, or on a new one. */
  predicate LeaseGiven(kv: Option<Record>, now: nat, cfg: Config, ev: Event, t': Task) {
    && t'.owner.Some? && t'.leaseUntil == now + cfg.leaseDuration && t'.updated == now
    && if kv.None? then Created(t', cfg, ev, now)
       else
         var t := kv.value.task;
         t' == t.(owner := t'.owner, leaseUntil := t'.leaseUntil, updated := now, origin := t'.origin) && Filled(t.origin, t'.origin, ev)
  }
}
