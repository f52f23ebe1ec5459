/** The code itself, delivery after delivery: as often as the budget says, undisturbed, and the task is
    over. */
module WorkDeliveries {
  import opened Events
  import opened Work
  import opened WorkProgress
  import opened WorkBus

  /** How many deliveries the task may still need. */
  function Needed(w: World, cfg: Config): nat {
    if w.kv.None? then cfg.maxAttempts else Remaining(Shelf(w.kv.value.task, w.outbox))
  }

  /** The instant from which the task can be claimed. */
  function Due(w: World): nat {
    if w.kv.None? then w.now
    else
      var t := w.kv.value.task;
      var at := if t.leaseUntil > w.now then t.leaseUntil else w.now;
      if t.nextAttempt > at then t.nextAttempt else at
  }

  predicate InBudget(w: World) {
    w.kv.Some? ==> w.kv.value.task.attempts <= w.kv.value.task.maxAttempts
  }

  predicate Over(w: World) {
    w.kv.Some? && Terminal(w.kv.value.task)
  }

  lemma NeededBound(w: World, cfg: Config)
    requires InBudget(w) && ValidConfig(cfg)
    ensures Needed(w, cfg) <= (if w.kv.Some? then w.kv.value.task.maxAttempts - w.kv.value.task.attempts + 1 else cfg.maxAttempts)
    ensures Needed(w, cfg) == 0 ==> Over(w)
  {
  }

  /** Lease, backoff and timestamp do not matter. */
  lemma RemainingCore(t: Task, t': Task, outbox: map<Id, Batch>)
    requires Core(t) == Core(t')
    ensures Remaining(Shelf(t, outbox)) == Remaining(Shelf(t', outbox)) && t.attempts == t'.attempts && t.maxAttempts == t'.maxAttempts
    ensures Terminal(t) <==> Terminal(t')
  {
  }

  lemma BaseNeeds(w: World, cfg: Config, ev: Event)
    requires InBudget(w) && ValidConfig(cfg) && !Over(w)
    ensures var t := ClaimBase(w, cfg, ev); Remaining(Shelf(t, w.outbox)) <= Needed(w, cfg) && t.attempts <= t.maxAttempts && !Terminal(t)
  {
  }

  /** One undisturbed delivery brings the task closer to its end. */
  lemma ServedNeeds(w: World, cfg: Config, ev: Event, handled: Batch, id: Id, w': World, reply: Reply)
    requires InBudget(w) && ValidConfig(cfg) && !Over(w) && Served(w, ClaimBase(w, cfg, ev), handled, id, w', reply)
    ensures Needed(w', cfg) < Needed(w, cfg) && InBudget(w')
  {
    var t := ClaimBase(w, cfg, ev);
    BaseNeeds(w, cfg, ev);
    ServeDecreases(Shelf(t, w.outbox), handled, id, w.now);
    var shelf := Serve(Shelf(t, w.outbox), handled, id, w.now);
    RemainingCore(w'.kv.value.task, shelf.task, shelf.outbox);
  }

  lemma {:induction false} Bounded(s: set<nat>) returns (n: nat)
    ensures forall x :: x in s ==> x < n
  {
    if s == {} {
      n := 0;
    } else {
      var x :| x in s;
      var m := Bounded(s - {x});
      n := if x < m then m else x + 1;
      assert forall y :: y in s ==> y == x || y in s - {x};
    }
  }

  lemma SomeNew(s: set<nat>)
    ensures exists n: nat :: n !in s
  {
    var n := Bounded(s);
    assert n !in s;
  }

  /** Time passes until the lease and the backoff are over. */
  method Await(bus: Bus)
    requires bus.Valid()
    modifies bus
    ensures bus.Valid() && old(bus.log) <= bus.log && bus.plan == []
    ensures bus.world.kv == old(bus.world.kv) && bus.world.outbox == old(bus.world.outbox)
    ensures !Over(bus.world) ==> Claimable(bus.world.kv, bus.world.now)
  {
    bus.plan := [];
    bus.Take(Tick(Due(bus.world), bus.world.nuid, bus.world.seqNo));
  }

  /** One delivery of the event, once the task can be claimed. */
  method DeliverOnce(bus: Bus, cfg: Config, ev: Event, handled: Batch)
    requires bus.Valid() && ValidConfig(cfg) && InBudget(bus.world) && !Over(bus.world)
    modifies bus
    ensures bus.Valid() && old(bus.log) <= bus.log
    ensures InBudget(bus.world) && Needed(bus.world, cfg) < old(Needed(bus.world, cfg))
  {
    Await(bus);
    SomeNew(bus.world.acts.Keys);
    SomeNew(bus.world.acked);
    var aid: Aid :| aid !in bus.world.acts.Keys;
    var msg: nat :| msg !in bus.world.acked;
    ghost var w := bus.world;
    var reply := Process(bus, cfg, ev, aid, msg, handled);
    ServedNeeds(w, cfg, ev, handled, w.nuid + 1, bus.world, reply);
  }

  /** Whatever the handler returns: MaxAttempts - Attempts + 1 deliveries in an undisturbed system leave the
      task completed or failed. */
  method DeliverAll(bus: Bus, cfg: Config, ev: Event, handled: seq<Batch>)
    requires bus.Valid() && ValidConfig(cfg)
    requires |handled| >= (if bus.world.kv.Some? then bus.world.kv.value.task.maxAttempts - bus.world.kv.value.task.attempts + 1 else cfg.maxAttempts)
    modifies bus
    ensures bus.Valid() && old(bus.log) <= bus.log && Over(bus.world)
  {
    bus.Sound();
    NeededBound(bus.world, cfg);
    var i := 0;
    while i < |handled| && !Over(bus.world)
      invariant 0 <= i <= |handled| && bus.Valid() && old(bus.log) <= bus.log && InBudget(bus.world)
      invariant Over(bus.world) || Needed(bus.world, cfg) <= |handled| - i
    {
      DeliverOnce(bus, cfg, ev, handled[i]);
      i := i + 1;
    }
    NeededBound(bus.world, cfg);
  }
}
