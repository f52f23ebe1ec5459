/** One undisturbed delivery as a function, and how many of them finish a task. */
module WorkProgress {
  import opened Wrappers
  import opened Work

  /** What survives a delivery: the record and the outbox. */
  datatype Shelf = Shelf(task: Task, outbox: map<Id, Batch>)

  /** The record without its lease, backoff and timestamp. */
  function Core(t: Task): Task {
    t.(owner := None, leaseUntil := 0, nextAttempt := 0, updated := 0)
  }

  function Failure(t: Task, reason: Reason): Task {
    t.(status := Failed, error := reason)
  }

  /** publishResult when every request succeeds. */
  function Settle(t: Task, batch: Batch, now: nat): Task {
    var n := |batch.events|;
    if t.nextOutput < n && t.publishAttempts >= t.maxPublishAttempts then Failure(t, PublicationExhausted(t.error))
    else
      var t1 := if t.nextOutput < n
                then t.(publishAttempts := t.publishAttempts + 1, emitted := t.emitted + (n - t.nextOutput), nextOutput := n)
                else t;
      Conclude(t1, batch, Retries(t1, batch, now))
  }

  function Conclude(t: Task, batch: Batch, again: bool): Task {
    if again then t.(status := RetryWait, error := BatchReason(batch), resultKey := None)
    else t.(status := if batch.error.Some? then Failed else Completed, error := BatchReason(batch))
  }

  function Attempted(t: Task, id: Id): Task {
    t.(status := Running, scanId := Some(id), resultKey := Some(id), attempts := t.attempts + 1,
       publishAttempts := 0, nextOutput := 0)
  }

  /** process when every request succeeds: `batch` is what the handler returns if it is called, `id`
      the next result key. */
  function Serve(s: Shelf, batch: Batch, id: Id, now: nat): Shelf {
    var t := s.task;
    if Terminal(t) then s
    else if t.resultKey.Some? && t.resultKey.value in s.outbox then
      Shelf(Settle(t.(status := Publishing), s.outbox[t.resultKey.value], now), s.outbox)
    else Unsaved(s, batch, id, now)
  }

  /** process when loadResult found nothing. */
  function Unsaved(s: Shelf, batch: Batch, id: Id, now: nat): Shelf {
    var t := s.task;
    if t.status == Publishing then Shelf(Failure(t, OutputMissing), s.outbox)
    else if BudgetSpent(t, now) then Shelf(Failure(t, ExecutionExhausted(t.error)), s.outbox)
    else Shelf(Settle(Attempted(t, id).(status := Publishing), batch, now), s.outbox[id := batch])
  }

  datatype Visit = Visit(batch: Batch, id: Id, now: nat)

  function ServeAll(s: Shelf, visits: seq<Visit>): Shelf
    decreases |visits|
  {
    if visits == [] then s
    else ServeAll(Serve(s, visits[0].batch, visits[0].id, visits[0].now), visits[1..])
  }

  /** How many more deliveries a task can need. */
  function Remaining(s: Shelf): nat {
    var t := s.task;
    if Terminal(t) then 0
    else if t.resultKey.Some? && t.resultKey.value in s.outbox then (if t.attempts <= t.maxAttempts then t.maxAttempts - t.attempts else 0) + 1
    else if t.attempts >= t.maxAttempts then 1
    else t.maxAttempts - t.attempts
  }

  lemma ServeDecreases(s: Shelf, batch: Batch, id: Id, now: nat)
    requires s.task.attempts <= s.task.maxAttempts
    ensures var s' := Serve(s, batch, id, now);
      && s'.task.attempts <= s'.task.maxAttempts == s.task.maxAttempts
      && (if Terminal(s.task) then s' == s else Remaining(s') < Remaining(s))
  {
  }

  /** Fault-free progress: MaxAttempts - Attempts + 1 undisturbed deliveries make any task terminal,
      whatever the handler returns and whatever the clock says. */
  lemma {:induction false} EnoughDeliveries(s: Shelf, visits: seq<Visit>)
    requires s.task.attempts <= s.task.maxAttempts && |visits| >= Remaining(s)
    ensures Terminal(ServeAll(s, visits).task)
    decreases |visits|
  {
    if visits != [] {
      ServeDecreases(s, visits[0].batch, visits[0].id, visits[0].now);
      EnoughDeliveries(Serve(s, visits[0].batch, visits[0].id, visits[0].now), visits[1..]);
    }
  }

  lemma FaultFreeProgress(s: Shelf, visits: seq<Visit>)
    requires s.task.attempts <= s.task.maxAttempts && |visits| >= s.task.maxAttempts - s.task.attempts + 1
    ensures Terminal(ServeAll(s, visits).task)
  {
    EnoughDeliveries(s, visits);
  }

  /** The bound is met: a task whose handler keeps failing transiently needs every one of them. */
  lemma {:induction false} ProgressBoundTight(s: Shelf, visits: seq<Visit>)
    requires s.task.attempts < s.task.maxAttempts && !Terminal(s.task)
    requires s.task.resultKey.Some? && s.task.resultKey.value in s.outbox
    requires Transient(s.outbox[s.task.resultKey.value])
    requires |visits| == s.task.maxAttempts - s.task.attempts
    requires forall v :: v in visits ==> Transient(v.batch) && v.now < s.task.deadline
    ensures !Terminal(ServeAll(s, visits).task)
  {
    var s1 := Serve(s, visits[0].batch, visits[0].id, visits[0].now);
    assert visits[0] in visits;
    RetriesOn(s1, visits[1..]);
  }

  /** A batch without outputs whose error may be retried. */
  predicate Transient(batch: Batch) {
    batch.events == [] && batch.error.Some? && batch.retry
  }

  lemma {:induction false} RetriesOn(s: Shelf, visits: seq<Visit>)
    requires s.task.status == RetryWait && s.task.resultKey.None? && |visits| < s.task.maxAttempts - s.task.attempts
    requires forall v :: v in visits ==> Transient(v.batch) && v.now < s.task.deadline
    ensures !Terminal(ServeAll(s, visits).task)
    decreases |visits|
  {
    if visits != [] {
      assert visits[0] in visits;
      RetriesOn(Serve(s, visits[0].batch, visits[0].id, visits[0].now), visits[1..]);
    }
  }
}
