/** sdk/work.go as it is written: claim, workLease.update, process and publishResult, running against
    the shared stores while every other activation does what it likes.

    `plan` stands for everything this code does not control: what the rest of the system does before
    each request, whether the request succeeds, and whether the context has been cancelled. An empty
    plan is a calm system. */
module WorkBus {
  import opened Wrappers
  import opened Events
  import opened Work
  import opened WorkInvariant
  import opened WorkFrames
  import opened WorkRecord
  import opened WorkTheorems
  import opened WorkProgress
  import opened WorkOutcomes

  datatype Turn = Turn(env: seq<Label>, out: Outcome, dup: bool, cancelled: bool, delay: nat)

  const CALM := Turn([], Good, false, false, 0)

  datatype Reply = Acked | Nak | Failure(error: string)

  class Bus {
    var world: World
    var plan: seq<Turn>
    ghost var log: seq<Label>

    /** The world is what a run of the protocol leads to. */
    ghost predicate Valid()
      reads this
    {
      Runs(INITIAL, log) && Final(INITIAL, log) == world
    }

    constructor (plan: seq<Turn>)
      ensures Valid() && this.plan == plan && world == INITIAL && log == []
    {
      world := INITIAL;
      this.plan := plan;
      log := [];
    }

    lemma Sound()
      requires Valid()
      ensures Inv(world)
    {
      EveryRun(log);
    }

    /** The next request's circumstances. */
    method NextTurn() returns (turn: Turn)
      requires Valid()
      modifies `plan
      ensures Valid() && world == old(world) && log == old(log)
      ensures old(plan) == [] ==> turn == CALM && plan == []
    {
      if plan == [] {
        turn := CALM;
      } else {
        turn := plan[0];
        plan := plan[1..];
      }
    }

    method Take(l: Label)
      requires Valid() && Enabled(world, l)
      modifies `world, `log
      ensures Valid() && world == Apply(old(world), l) && log == old(log) + [l]
    {
      RunSnoc(INITIAL, log, l);
      world := Apply(world, l);
      log := log + [l];
    }

    /** The delivery ends without a reply of its own. */
    method Crash(aid: Aid)
      requires Valid() && aid in world.acts
      modifies `world, `log
      ensures Valid() && old(log) <= log && aid in world.acts
      ensures world.acts[aid] == old(world.acts[aid]).(pc := Gone)
      ensures SameStores(old(world), world)
    {
      QuietFrame(world, Stop(aid));
      Take(Stop(aid));
    }

    /** claim reads the record and the clock. */
    method Look(aid: Aid)
      requires Valid() && aid in world.acts && world.acts[aid].pc == Delivered
      modifies `world, `log
      ensures Valid() && old(log) <= log && aid in world.acts
      ensures world.acts[aid] == old(world.acts[aid]).(pc := Seen(world.kv, world.now))
      ensures SameStores(old(world), world)
    {
      QuietFrame(world, Get(aid));
      Take(Get(aid));
    }

    /** The other activations move; the stores may answer old requests. */
    method Disturb(aid: Aid, env: seq<Label>)
      requires Valid()
      modifies `world, `log
      ensures Valid() && old(log) <= log && Elsewhere(old(world), world, aid)
      ensures env == [] ==> world == old(world) && log == old(log)
    {
      var i := 0;
      while i < |env|
        invariant 0 <= i <= |env|
        invariant Valid() && old(log) <= log && Elsewhere(old(world), world, aid)
        invariant env == [] ==> world == old(world) && log == old(log)
      {
        if Enabled(world, env[i]) && Actor(env[i]) != Some(aid) {
          ForeignStep(world, env[i], aid);
          Take(env[i]);
        }
        i := i + 1;
      }
    }
  }

  /** Nothing happened to activation `aid`. */
  predicate Elsewhere(w: World, w': World, aid: Aid) {
    && w.now <= w'.now
    && (aid in w.acts <==> aid in w'.acts)
    && (aid in w.acts ==> w'.acts[aid] == w.acts[aid])
  }

  lemma ForeignStep(w: World, l: Label, aid: Aid)
    requires Enabled(w, l) && Actor(l) != Some(aid)
    ensures Elsewhere(w, Apply(w, l), aid)
  {
    if l.Cas? {
      if l.out == Good { GoodFrame(w, l.a, l.change); } else { BadFrame(w, l.a, l.change, l.out.sent); }
    } else if Quiet(l) {
      QuietFrame(w, l);
    } else if l.LandWrite? {
      LandFrame(w, l.w);
    }
  }

  // ---------------------------------------------------------------- the closures handed to update

  /** A change before the clock and the id supply are read. */
  datatype Edit =
    | StartEdit
    | MarkEdit
    | PassEdit
    | AdvanceEdit(i: nat)
    | ReleaseEdit
    | DeferEdit(reason: Reason, delay: nat)
    | RetryEdit(reason: Reason, delay: nat)
    | FinishEdit(status: Status, reason: Reason)

  function Resolve(e: Edit, now: nat, nuid: Id): Change {
    match e
    case StartEdit => Start(nuid)
    case MarkEdit => Mark
    case PassEdit => Pass
    case AdvanceEdit(i) => Advance(i)
    case ReleaseEdit => Release
    case DeferEdit(reason, delay) => Defer(reason, now + delay)
    case RetryEdit(reason, delay) => Retry(reason, now + delay)
    case FinishEdit(status, reason) => Finish(status, reason)
  }

  /** The edit the code makes at this program point. */
  predicate Permits(pc: Pc, t: Task, e: Edit) {
    match e
    case StartEdit => pc == Starting
    case MarkEdit => pc.Marking?
    case PassEdit => pc.Entering? && t.publishAttempts < t.maxPublishAttempts
    case AdvanceEdit(i) => pc.Advancing? && pc.i == i
    case ReleaseEdit => pc.Loop? && pc.i < |pc.batch.events|
    case DeferEdit(reason, _) => pc.Deferring? && reason.NotPublished?
    case RetryEdit(reason, _) => pc.Closing? && pc.again && reason == BatchReason(pc.batch)
    case FinishEdit(status, reason) =>
      || (pc == Failing(reason) && status == Failed)
      || (pc.Entering? && t.publishAttempts >= t.maxPublishAttempts && status == Failed && reason == PublicationExhausted(t.error))
      || (pc.Closing? && !pc.again && status == (if pc.batch.error.Some? then Failed else Completed) && reason == BatchReason(pc.batch))
  }

  lemma PermitsOffers(act: Act, e: Edit, now: nat, nuid: Id)
    requires act.lease.Some? && Permits(act.pc, act.lease.value.task, e)
    ensures Offers(act, Resolve(e, now, nuid), now, nuid)
  {
  }

  /** Where the code goes on after the edit, and what the record then says, lease and times aside. */
  function Edited(t: Task, e: Edit, id: Id): Task {
    match e
    case StartEdit => Attempted(t, id)
    case MarkEdit => t.(status := Publishing)
    case PassEdit => t.(publishAttempts := t.publishAttempts + 1)
    case AdvanceEdit(i) => t.(nextOutput := i + 1, emitted := t.emitted + 1)
    case ReleaseEdit => t
    case DeferEdit(reason, _) => t.(error := reason)
    case RetryEdit(reason, _) => t.(status := RetryWait, error := reason, resultKey := None)
    case FinishEdit(status, reason) => t.(status := status, error := reason)
  }

  function EditedPc(pc: Pc, t: Task, e: Edit, id: Id): Pc {
    match e
    case StartEdit => Armed(id)
    case MarkEdit => if pc.Marking? then EnterPc(pc.key, pc.batch, t) else Leaving
    case PassEdit => if pc.Entering? then Loop(pc.key, pc.batch, t.nextOutput) else Leaving
    case AdvanceEdit(i) => if pc.Advancing? then Loop(pc.key, pc.batch, i + 1) else Leaving
    case FinishEdit(_, _) => Acking
    case _ => Leaving
  }

  lemma EditedWon(act: Act, e: Edit, now: nat, nuid: Id, rev: nat)
    requires act.lease.Some? && Permits(act.pc, act.lease.value.task, e)
    ensures var c := Resolve(e, now, nuid); var t := act.lease.value.task; var act' := Won(act, c, now, rev);
      && !c.Claim? && !c.Beat?
      && act'.lease.Some? && act'.lease.value.rev == rev && Core(act'.lease.value.task) == Core(Edited(t, e, nuid))
      && act'.pc == EditedPc(act.pc, t, e, nuid)
      && act'.me == act.me && act'.cfg == act.cfg && act'.msg == act.msg
  {
  }

  /** Only the lease was renewed. */
  predicate Renewed(t: Task, t': Task) {
    t' == t.(leaseUntil := t'.leaseUntil, updated := t'.updated)
  }

  predicate OwnBeat(l: Label, aid: Aid) {
    l.Cas? && l.a == aid && l.change.Beat?
  }

  lemma BeatStep(w: World, l: Label, aid: Aid)
    requires Enabled(w, l) && OwnBeat(l, aid)
    ensures var act := w.acts[aid]; var w' := Apply(w, l);
      && aid in w'.acts && w'.now == w.now && act.lease.Some?
      && var act' := w'.acts[aid];
         && act' == act.(lease := act'.lease) && act'.lease.Some?
         && Renewed(act.lease.value.task, act'.lease.value.task)
  {
  }

  /** Record, outbox, clock and id supply stand still. */
  predicate SameStores(w: World, w': World) {
    w'.kv == w.kv && w'.outbox == w.outbox && w'.now == w.now && w'.nuid == w.nuid
  }

  // ---------------------------------------------------------------- workLease

  /** The owner's handle: its copy of the task and the revision it may replace. */
  class WorkLease {
    const bus: Bus
    const aid: Aid
    var task: Task
    var revision: nat

    ghost predicate Valid()
      reads this, bus
    {
      && bus.Valid() && aid in bus.world.acts
      && bus.world.acts[aid].lease == Some(Lease(task, revision))
    }

    function Pc(): Pc
      requires aid in bus.world.acts
      reads this, bus
    {
      bus.world.acts[aid].pc
    }

    /** Nobody interferes and the handle is current. */
    ghost predicate Calm()
      reads this, bus
    {
      Valid() && bus.plan == [] && revision == CurrentRev(bus.world)
    }

    constructor (bus: Bus, aid: Aid)
      requires bus.Valid() && aid in bus.world.acts && bus.world.acts[aid].lease.Some?
      ensures Valid() && this.bus == bus && this.aid == aid
    {
      this.bus := bus;
      this.aid := aid;
      this.task := bus.world.acts[aid].lease.value.task;
      this.revision := bus.world.acts[aid].lease.value.rev;
    }

    /** Time for the others, and for this lease's own heartbeat goroutine. */
    method Wait(env: seq<Label>)
      requires Valid()
      modifies this, bus`world, bus`log
      ensures Valid() && old(bus.log) <= bus.log && old(bus.world.now) <= bus.world.now
      ensures bus.world.acts[aid] == old(bus.world.acts[aid]).(lease := Some(Lease(task, revision)))
      ensures Renewed(old(task), task)
      ensures env == [] ==> bus.world == old(bus.world) && task == old(task) && revision == old(revision)
    {
      var i := 0;
      while i < |env|
        invariant 0 <= i <= |env|
        invariant Valid() && old(bus.log) <= bus.log && old(bus.world.now) <= bus.world.now
        invariant bus.world.acts[aid] == old(bus.world.acts[aid]).(lease := Some(Lease(task, revision)))
        invariant Renewed(old(task), task)
        invariant env == [] ==> bus.world == old(bus.world) && task == old(task) && revision == old(revision)
      {
        if Enabled(bus.world, env[i]) {
          if OwnBeat(env[i], aid) {
            BeatStep(bus.world, env[i], aid);
            bus.Take(env[i]);
            task, revision := bus.world.acts[aid].lease.value.task, bus.world.acts[aid].lease.value.rev;
          } else if Actor(env[i]) != Some(aid) {
            ForeignStep(bus.world, env[i], aid);
            bus.Take(env[i]);
          }
        }
        i := i + 1;
      }
    }

    /** The store accepts the write. */
    method Swap(e: Edit)
      requires Valid() && Permits(Pc(), task, e) && revision == CurrentRev(bus.world)
      modifies this, bus`world, bus`log
      ensures Valid() && old(bus.log) <= bus.log
      ensures Core(task) == Core(Edited(old(task), e, old(bus.world.nuid)))
      ensures bus.world.acts[aid] == old(bus.world.acts[aid]).(
                pc := EditedPc(old(Pc()), old(task), e, old(bus.world.nuid)), lease := Some(Lease(task, revision)))
      ensures bus.world.kv == Some(Record(task, revision)) && CurrentRev(bus.world) == revision
      ensures bus.world.now == old(bus.world.now) && bus.world.outbox == old(bus.world.outbox)
    {
      var w := bus.world;
      var c := Resolve(e, w.now, w.nuid);
      PermitsOffers(w.acts[aid], e, w.now, w.nuid);
      EditedWon(w.acts[aid], e, w.now, w.nuid, w.seqNo + 1);
      GoodFrame(w, aid, c);
      bus.Take(Cas(aid, c, Good));
      task, revision := bus.world.acts[aid].lease.value.task, w.seqNo + 1;
    }

    /** The caller sees an error; the write may still land. */
    method Lose(e: Edit, sent: bool)
      requires Valid() && Permits(Pc(), task, e)
      modifies bus`world, bus`log
      ensures Valid() && old(bus.log) <= bus.log
      ensures bus.world.acts[aid] == old(bus.world.acts[aid]).(pc := Leaving)
    {
      var w := bus.world;
      var c := Resolve(e, w.now, w.nuid);
      PermitsOffers(w.acts[aid], e, w.now, w.nuid);
      BadFrame(w, aid, c, sent);
      bus.Take(Cas(aid, c, Bad(sent)));
    }

    /** Compare-and-swap against the revision of the last successful write. */
    method Update(e: Edit) returns (ok: bool)
      requires Valid() && Permits(Pc(), task, e)
      modifies this, bus
      ensures Valid() && old(bus.log) <= bus.log
      ensures ok ==> exists id: Id ::
        && Core(task) == Core(Edited(old(task), e, id))
        && bus.world.acts[aid] == old(bus.world.acts[aid]).(
             pc := EditedPc(old(Pc()), old(task), e, id), lease := Some(Lease(task, revision)))
      ensures ok ==> bus.world.kv == Some(Record(task, revision))
      ensures !ok ==> bus.world.acts[aid] == old(bus.world.acts[aid]).(pc := Leaving, lease := Some(Lease(task, revision)))
      ensures old(Calm()) ==> ok && Calm() && bus.world.now == old(bus.world.now) && bus.world.outbox == old(bus.world.outbox)
      ensures old(Calm()) && e == StartEdit ==> Pc() == Armed(old(bus.world.nuid))
    {
      var turn := bus.NextTurn();
      Wait(turn.env);
      if turn.out == Good && revision == CurrentRev(bus.world) {
        label swap:
        Swap(e);
        EditedRenewed(old(task), old@swap(task), e, old@swap(bus.world.nuid));
        ok := true;
      } else {
        Lose(e, turn.out.Bad? && turn.out.sent);
        ok := false;
      }
    }

    /** The clock is read: is the budget spent, is there another attempt? */
    method Decide()
      requires Valid() && Judges(Pc())
      modifies bus`world, bus`log
      ensures Valid() && old(bus.log) <= bus.log
      ensures bus.world.acts[aid] == old(bus.world.acts[aid]).(pc := Judged(old(Pc()), task, bus.world.now))
      ensures SameStores(old(bus.world), bus.world)
    {
      QuietFrame(bus.world, Judge(aid));
      bus.Take(Judge(aid));
    }

    /** The handler is called. */
    method Begin()
      requires Valid() && Pc().Armed?
      modifies bus`world, bus`log
      ensures Valid() && old(bus.log) <= bus.log
      ensures bus.world.acts[aid] == old(bus.world.acts[aid]).(pc := Calling(old(Pc().key)))
      ensures SameStores(old(bus.world), bus.world)
    {
      QuietFrame(bus.world, Call(aid));
      bus.Take(Call(aid));
    }

    /** The handler has returned. */
    method End(handled: Batch)
      requires Valid() && Pc().Calling?
      modifies bus`world, bus`log
      ensures Valid() && old(bus.log) <= bus.log
      ensures bus.world.acts[aid] == old(bus.world.acts[aid]).(pc := Saving(old(Pc().key), handled))
      ensures SameStores(old(bus.world), bus.world)
    {
      QuietFrame(bus.world, Return(aid, handled));
      bus.Take(Return(aid, handled));
    }

    /** The batch is put into the outbox. */
    method Save(out: Outcome)
      requires Valid() && Pc().Saving?
      modifies bus`world, bus`log
      ensures Valid() && old(bus.log) <= bus.log
      ensures bus.world.acts[aid] == old(bus.world.acts[aid]).(
                pc := if out == Good then Marking(old(Pc().key), old(Pc().batch)) else Leaving)
      ensures out == Good ==> bus.world.outbox == old(bus.world.outbox)[old(Pc().key) := old(Pc().batch)]
      ensures bus.world.kv == old(bus.world.kv) && bus.world.now == old(bus.world.now)
    {
      bus.Take(Put(aid, out));
    }
  }

  lemma EditedRenewed(t: Task, t': Task, e: Edit, id: Id)
    requires Renewed(t, t')
    ensures Core(Edited(t, e, id)) == Core(Edited(t', e, id))
    ensures forall pc :: EditedPc(pc, t, e, id) == EditedPc(pc, t', e, id)
  {
  }

  // ---------------------------------------------------------------- process

  /** What every method of the delivery leaves behind once it has replied. */
  ghost predicate Replied(bus: Bus, aid: Aid, msg: nat, reply: Reply)
    reads bus
  {
    && bus.Valid() && aid in bus.world.acts && !Active(bus.world.acts[aid])
    && (reply == Acked ==> msg in bus.world.acked)
  }

  method AckMessage(bus: Bus, aid: Aid) returns (reply: Reply)
    requires bus.Valid() && aid in bus.world.acts && bus.world.acts[aid].pc == Acking
    modifies bus
    ensures Replied(bus, aid, old(bus.world.acts[aid].msg), reply) && old(bus.log) <= bus.log
    ensures old(bus.plan) == [] ==> reply == Acked && bus.world.kv == old(bus.world.kv) && bus.world.outbox == old(bus.world.outbox)
  {
    var turn := bus.NextTurn();
    bus.Disturb(aid, turn.env);
    if turn.out == Good {
      bus.Take(Ack(aid));
      reply := Acked;
    } else {
      bus.Take(Stop(aid));
      reply := Failure("ack");
    }
  }

  /** A write that ends the delivery: the message is acknowledged afterwards. */
  method FinishAndAck(lease: WorkLease, status: Status, reason: Reason) returns (reply: Reply)
    requires lease.Valid() && Permits(lease.Pc(), lease.task, FinishEdit(status, reason))
    modifies lease, lease.bus
    ensures Replied(lease.bus, lease.aid, old(lease.bus.world.acts[lease.aid].msg), reply) && old(lease.bus.log) <= lease.bus.log
    ensures old(lease.Calm()) ==>
      && reply == Acked && lease.bus.world.kv.Some? && lease.bus.world.outbox == old(lease.bus.world.outbox)
      && Core(lease.bus.world.kv.value.task) == Core(old(lease.task).(status := status, error := reason))
  {
    var ok := lease.Update(FinishEdit(status, reason));
    if !ok {
      return Failure("finish");
    }
    reply := AckMessage(lease.bus, lease.aid);
  }

  /** A write that ends the delivery: the message comes back later. */
  method WriteAndNak(lease: WorkLease, e: Edit) returns (reply: Reply)
    requires lease.Valid() && Permits(lease.Pc(), lease.task, e) && (e.ReleaseEdit? || e.DeferEdit? || e.RetryEdit?)
    modifies lease, lease.bus
    ensures Replied(lease.bus, lease.aid, old(lease.bus.world.acts[lease.aid].msg), reply) && old(lease.bus.log) <= lease.bus.log
    ensures reply != Acked
    ensures old(lease.Calm()) ==>
      && reply == Nak && lease.bus.world.kv.Some? && lease.bus.world.outbox == old(lease.bus.world.outbox)
      && Core(lease.bus.world.kv.value.task) == Core(Edited(old(lease.task), e, 0))
  {
    var ok := lease.Update(e);
    reply := if ok then Nak else Failure("write");
  }

  lemma LeaseFacts(lease: WorkLease)
    requires lease.Valid()
    ensures CopyOk(lease.bus.world.acts[lease.aid]) && ActSaved(lease.bus.world, lease.bus.world.acts[lease.aid])
    ensures lease.revision == CurrentRev(lease.bus.world) ==> lease.bus.world.kv == Some(Record(lease.task, lease.revision))
  {
    lease.bus.Sound();
    assert HandleOk(lease.bus.world, Lease(lease.task, lease.revision));
  }

  /** One publish request for output i. */
  method Send(lease: WorkLease, turn: Turn) returns (ok: bool)
    requires lease.Valid() && lease.Pc().Loop? && lease.Pc().i < |lease.Pc().batch.events|
    modifies lease.bus`world, lease.bus`log
    ensures lease.Valid() && old(lease.bus.log) <= lease.bus.log
    ensures ok == (turn.out == Good)
    ensures var pc := old(lease.Pc());
      lease.bus.world.acts[lease.aid] == old(lease.bus.world.acts[lease.aid]).(
        pc := if ok then Advancing(pc.key, pc.batch, pc.i) else Deferring(pc.key, pc.batch, pc.i))
    ensures lease.bus.world.kv == old(lease.bus.world.kv) && lease.bus.world.outbox == old(lease.bus.world.outbox)
    ensures lease.bus.world.now == old(lease.bus.world.now)
  {
    var pc := lease.Pc();
    var dup := turn.dup && Copy(pc.key, pc.i) in lease.bus.world.pub;
    lease.bus.Take(Publish(lease.aid, dup, turn.out));
    ok := turn.out == Good;
  }

  /** Send output i, and move the persisted index behind it. */
  method SendOne(lease: WorkLease, turn: Turn) returns (reply: Option<Reply>)
    requires lease.Valid() && lease.Pc().Loop? && lease.Pc().i < |lease.Pc().batch.events|
    modifies lease, lease.bus
    ensures old(lease.bus.log) <= lease.bus.log
    ensures reply.Some? ==> reply.value != Acked && Replied(lease.bus, lease.aid, old(lease.bus.world.acts[lease.aid].msg), reply.value)
    ensures reply.None? ==>
      && lease.Valid() && lease.bus.world.acts[lease.aid].msg == old(lease.bus.world.acts[lease.aid].msg)
      && lease.Pc() == Loop(old(lease.Pc().key), old(lease.Pc().batch), old(lease.Pc().i) + 1)
    ensures old(lease.Calm()) && turn == CALM ==>
      && reply.None? && lease.Calm() && lease.bus.world.now == old(lease.bus.world.now)
      && lease.bus.world.outbox == old(lease.bus.world.outbox)
      && Core(lease.task) == Core(Edited(old(lease.task), AdvanceEdit(old(lease.Pc().i)), 0))
  {
    var i := lease.Pc().i;
    var sent := Send(lease, turn);
    if !sent {
      var r := WriteAndNak(lease, DeferEdit(NotPublished("publish"), turn.delay));
      return Some(r);
    }
    var ok := lease.Update(AdvanceEdit(i));
    reply := if ok then None else Some(Failure("index"));
  }

  /** Publish output i, then move the persisted index. `None` means the loop goes on. */
  method PublishOne(lease: WorkLease) returns (reply: Option<Reply>)
    requires lease.Valid() && lease.Pc().Loop? && lease.Pc().i < |lease.Pc().batch.events|
    modifies lease, lease.bus
    ensures old(lease.bus.log) <= lease.bus.log
    ensures reply.Some? ==> reply.value != Acked && Replied(lease.bus, lease.aid, old(lease.bus.world.acts[lease.aid].msg), reply.value)
    ensures reply.None? ==>
      && lease.Valid() && lease.bus.world.acts[lease.aid].msg == old(lease.bus.world.acts[lease.aid].msg)
      && lease.Pc() == Loop(old(lease.Pc().key), old(lease.Pc().batch), old(lease.Pc().i) + 1)
    ensures old(lease.Calm()) ==>
      && reply.None? && lease.Calm() && lease.bus.world.now == old(lease.bus.world.now)
      && lease.bus.world.outbox == old(lease.bus.world.outbox)
      && Core(lease.task) == Core(Edited(old(lease.task), AdvanceEdit(old(lease.Pc().i)), 0))
  {
    var turn := lease.bus.NextTurn();
    lease.Wait(turn.env);
    if turn.cancelled {
      var r := WriteAndNak(lease, ReleaseEdit);
      return Some(r);
    }
    reply := SendOne(lease, turn);
  }

  /** In a calm system the message is acknowledged exactly when the task is over. */
  function CalmReply(t: Task): Reply {
    if Terminal(t) then Acked else Nak
  }

  /** Core of the record after the loop has published outputs i up to n. */
  function Advanced(t: Task, i: nat, n: nat): Task
    requires i <= n
  {
    if i == n then t else t.(nextOutput := n, emitted := t.emitted + (n - i))
  }

  /** publishResult: resume the saved batch at the persisted index. */
  method PublishResult(lease: WorkLease) returns (reply: Reply)
    requires lease.Valid() && (lease.Pc().Entering? || (lease.Pc().Loop? && lease.Pc().i >= |lease.Pc().batch.events|))
    modifies lease, lease.bus
    ensures Replied(lease.bus, lease.aid, old(lease.bus.world.acts[lease.aid].msg), reply) && old(lease.bus.log) <= lease.bus.log
    ensures old(lease.Calm()) ==>
      && lease.bus.world.kv.Some? && lease.bus.world.outbox == old(lease.bus.world.outbox)
      && Core(lease.bus.world.kv.value.task) == Core(Settle(old(lease.task), old(lease.Pc().batch), old(lease.bus.world.now)))
      && reply == CalmReply(lease.bus.world.kv.value.task)
  {
    LeaseFacts(lease);
    if lease.Pc().Entering? {
      if lease.task.publishAttempts >= lease.task.maxPublishAttempts {
        reply := FinishAndAck(lease, Failed, PublicationExhausted(lease.task.error));
        return;
      }
      var ok := lease.Update(PassEdit);
      if !ok {
        return Failure("pass");
      }
    }
    reply := PublishRest(lease);
  }

  /** The loop of publishResult and what follows it. */
  method PublishRest(lease: WorkLease) returns (reply: Reply)
    requires lease.Valid() && lease.Pc().Loop?
    modifies lease, lease.bus
    ensures Replied(lease.bus, lease.aid, old(lease.bus.world.acts[lease.aid].msg), reply) && old(lease.bus.log) <= lease.bus.log
    ensures old(lease.Calm()) ==>
      && lease.bus.world.kv.Some? && lease.bus.world.outbox == old(lease.bus.world.outbox)
      && (var batch := old(lease.Pc().batch);
          var n := |batch.events|;
          var i := old(lease.Pc().i);
          i <= n &&
          var t := Advanced(old(lease.task), i, n);
          Core(lease.bus.world.kv.value.task) == Core(Conclude(t, batch, Retries(t, batch, old(lease.bus.world.now)))))
      && reply == CalmReply(lease.bus.world.kv.value.task)
  {
    LeaseFacts(lease);
    ghost var t0, calm, now := lease.task, lease.Calm(), lease.bus.world.now;
    var key, batch, first := lease.Pc().key, lease.Pc().batch, lease.Pc().i;
    var i := first;
    while i < |batch.events|
      invariant first <= i <= |batch.events|
      invariant lease.Valid() && lease.Pc() == Loop(key, batch, i) && old(lease.bus.log) <= lease.bus.log
      invariant lease.bus.world.acts[lease.aid].msg == old(lease.bus.world.acts[lease.aid].msg)
      invariant calm ==>
        && lease.Calm() && lease.bus.world.now == now && lease.bus.world.outbox == old(lease.bus.world.outbox)
        && Core(lease.task) == Core(Advanced(t0, first, i))
    {
      var r := PublishOne(lease);
      if r.Some? {
        return r.value;
      }
      i := i + 1;
    }
    reply := Close(lease);
  }

  /** Another execution for an error that may be retried, while attempts are left and the deadline has not
      come; else the end, in success or failure, and the acknowledgement. */
  predicate Closed(t: Task, batch: Batch, now: nat, status: Status, reply: Reply) {
    if batch.error.None? then status == Completed && reply == Acked
    else if batch.retry && t.attempts < t.maxAttempts && now < t.deadline then status == RetryWait && reply == Nak
    else status == Failed && reply == Acked
  }

  /** All outputs are published: schedule another execution, or finish. */
  method Close(lease: WorkLease) returns (reply: Reply)
    requires lease.Valid() && lease.Pc().Loop? && lease.Pc().i >= |lease.Pc().batch.events|
    modifies lease, lease.bus
    ensures Replied(lease.bus, lease.aid, old(lease.bus.world.acts[lease.aid].msg), reply) && old(lease.bus.log) <= lease.bus.log
    ensures old(lease.Calm()) ==>
      && lease.bus.world.kv.Some? && lease.bus.world.outbox == old(lease.bus.world.outbox)
      && (var batch := old(lease.Pc().batch);
          Core(lease.bus.world.kv.value.task)
            == Core(Conclude(old(lease.task), batch, Retries(old(lease.task), batch, old(lease.bus.world.now)))))
      && reply == CalmReply(lease.bus.world.kv.value.task)
      && Closed(old(lease.task), old(lease.Pc().batch), old(lease.bus.world.now), lease.bus.world.kv.value.task.status, reply)
  {
    var turn := lease.bus.NextTurn();
    lease.Wait(turn.env);
    var batch := lease.Pc().batch;
    var again := Retries(lease.task, batch, lease.bus.world.now);
    lease.Decide();
    if again {
      reply := WriteAndNak(lease, RetryEdit(BatchReason(batch), turn.delay));
    } else {
      reply := FinishAndAck(lease, if batch.error.Some? then Failed else Completed, BatchReason(batch));
    }
  }

  lemma SettleCore(t: Task, t': Task, batch: Batch, now: nat)
    requires Core(t) == Core(t')
    ensures Core(Settle(t, batch, now)) == Core(Settle(t', batch, now))
  {
  }

  /** The handler runs, and its batch is saved before anything is published. */
  method Execute(lease: WorkLease, handled: Batch) returns (ok: bool)
    requires lease.Valid() && lease.Pc().Armed?
    modifies lease, lease.bus
    ensures lease.bus.Valid() && lease.aid in lease.bus.world.acts && old(lease.bus.log) <= lease.bus.log
    ensures ok ==>
      && lease.Valid() && Renewed(old(lease.task), lease.task) && lease.Pc() == Marking(old(lease.Pc().key), handled)
      && lease.bus.world.acts[lease.aid].msg == old(lease.bus.world.acts[lease.aid].msg)
    ensures !ok ==> !Active(lease.bus.world.acts[lease.aid])
    ensures old(lease.Calm()) ==>
      && ok && lease.Calm() && lease.bus.world.now == old(lease.bus.world.now)
      && lease.bus.world.outbox == old(lease.bus.world.outbox)[old(lease.Pc().key) := handled]
  {
    var turn := lease.bus.NextTurn();
    lease.Wait(turn.env);
    lease.Begin();
    turn := lease.bus.NextTurn();
    lease.Wait(turn.env);
    lease.End(handled);
    turn := lease.bus.NextTurn();
    lease.Wait(turn.env);
    lease.Save(turn.out);
    ok := turn.out == Good;
  }

  /** The budget check after an interruption. */
  method CheckBudget(lease: WorkLease) returns (turn: Turn)
    requires lease.Valid() && lease.Pc() == Missing
    modifies lease, lease.bus
    ensures lease.Valid() && old(lease.bus.log) <= lease.bus.log && Renewed(old(lease.task), lease.task)
    ensures lease.bus.world.acts[lease.aid].msg == old(lease.bus.world.acts[lease.aid].msg)
    ensures lease.Pc() == Judged(Missing, lease.task, lease.bus.world.now)
    ensures old(lease.Calm()) ==>
      && turn == CALM && lease.Calm() && lease.bus.world.now == old(lease.bus.world.now)
      && lease.bus.world.outbox == old(lease.bus.world.outbox) && lease.bus.world.nuid == old(lease.bus.world.nuid)
      && lease.task == old(lease.task)
  {
    turn := lease.bus.NextTurn();
    lease.Wait(turn.env);
    lease.Decide();
  }

  /** No saved batch was found: fail the task, or spend an attempt and run the handler. `None` means
      there now is a batch to publish. */
  method Recover(lease: WorkLease, handled: Batch) returns (reply: Option<Reply>)
    requires lease.Valid() && lease.Pc() == Missing
    modifies lease, lease.bus
    ensures old(lease.bus.log) <= lease.bus.log
    ensures reply.Some? ==> Replied(lease.bus, lease.aid, old(lease.bus.world.acts[lease.aid].msg), reply.value)
    ensures reply.None? ==>
      && lease.Valid() && lease.Pc().Marking? && lease.Pc().batch == handled
      && lease.bus.world.acts[lease.aid].msg == old(lease.bus.world.acts[lease.aid].msg)
    ensures old(lease.Calm()) ==>
      var t := old(lease.task); var world := old(lease.bus.world);
      if t.status != Publishing && t.attempts < t.maxAttempts && world.now <= t.deadline then
        && reply.None? && lease.Calm() && lease.bus.world.now == world.now
        && Core(lease.task) == Core(Attempted(t, world.nuid))
        && lease.bus.world.outbox == world.outbox[world.nuid := handled]
      else
        && reply == Some(Acked) && lease.bus.world.kv.Some? && lease.bus.world.outbox == world.outbox
        && Core(lease.bus.world.kv.value.task)
             == Core(WorkProgress.Failure(t, if t.status == Publishing then OutputMissing else ExecutionExhausted(t.error)))
  {
    var turn := CheckBudget(lease);
    if lease.Pc().Failing? {
      var r := FinishAndAck(lease, Failed, lease.Pc().reason);
      return Some(r);
    }
    if turn.cancelled {
      lease.bus.Crash(lease.aid);
      return Some(Failure("cancelled"));
    }
    reply := Attempt(lease, handled);
  }

  /** Spend an attempt, run the handler and save its batch. */
  method Attempt(lease: WorkLease, handled: Batch) returns (reply: Option<Reply>)
    requires lease.Valid() && lease.Pc() == Starting
    modifies lease, lease.bus
    ensures old(lease.bus.log) <= lease.bus.log
    ensures reply.Some? ==> Replied(lease.bus, lease.aid, old(lease.bus.world.acts[lease.aid].msg), reply.value) && reply.value.Failure?
    ensures reply.None? ==>
      && lease.Valid() && lease.Pc().Marking? && lease.Pc().batch == handled
      && lease.bus.world.acts[lease.aid].msg == old(lease.bus.world.acts[lease.aid].msg)
    ensures old(lease.Calm()) ==>
      && reply.None? && lease.Calm() && lease.bus.world.now == old(lease.bus.world.now)
      && Core(lease.task) == Core(Attempted(old(lease.task), old(lease.bus.world.nuid)))
      && lease.bus.world.outbox == old(lease.bus.world.outbox)[old(lease.bus.world.nuid) := handled]
  {
    var ok := lease.Update(StartEdit);
    if !ok {
      return Some(Failure("start"));
    }
    ok := Execute(lease, handled);
    reply := if ok then None else Some(Failure("save"));
  }

  /** loadResult: a read that fails ends the delivery. */
  method LoadResult(lease: WorkLease) returns (ok: bool)
    requires lease.Valid() && lease.Pc() == Leased
    modifies lease, lease.bus
    ensures lease.Valid() && old(lease.bus.log) <= lease.bus.log && Renewed(old(lease.task), lease.task)
    ensures lease.bus.world.acts[lease.aid].msg == old(lease.bus.world.acts[lease.aid].msg)
    ensures lease.Pc() == if ok then Loaded(lease.bus.world, lease.task) else Gone
    ensures old(lease.Calm()) ==>
      && ok && lease.Calm() && lease.bus.world.now == old(lease.bus.world.now)
      && lease.bus.world.outbox == old(lease.bus.world.outbox) && lease.bus.world.nuid == old(lease.bus.world.nuid)
      && lease.task == old(lease.task)
  {
    var turn := lease.bus.NextTurn();
    lease.Wait(turn.env);
    ok := turn.out == Good;
    lease.bus.Take(if ok then Load(lease.aid) else Stop(lease.aid));
  }

  /** process from loadResult on. */
  method Continue(lease: WorkLease, handled: Batch) returns (reply: Reply)
    requires lease.Valid() && lease.Pc() == Leased
    modifies lease, lease.bus
    ensures Replied(lease.bus, lease.aid, old(lease.bus.world.acts[lease.aid].msg), reply) && old(lease.bus.log) <= lease.bus.log
    ensures old(lease.Calm()) ==>
      && lease.bus.world.kv.Some?
      && (var world := old(lease.bus.world);
          var shelf := Serve(Shelf(old(lease.task), world.outbox), handled, world.nuid, world.now);
          Core(lease.bus.world.kv.value.task) == Core(shelf.task) && lease.bus.world.outbox == shelf.outbox)
      && reply == CalmReply(lease.bus.world.kv.value.task)
  {
    LeaseFacts(lease);
    var ok := LoadResult(lease);
    if !ok {
      return Failure("load");
    }
    if lease.Pc() == Missing {
      reply := RecoverAndPublish(lease, handled);
    } else {
      reply := Resume(lease);
    }
  }

  /** Without a saved batch: recover one, then publish it. */
  method RecoverAndPublish(lease: WorkLease, handled: Batch) returns (reply: Reply)
    requires lease.Valid() && lease.Pc() == Missing
    modifies lease, lease.bus
    ensures Replied(lease.bus, lease.aid, old(lease.bus.world.acts[lease.aid].msg), reply) && old(lease.bus.log) <= lease.bus.log
    ensures old(lease.Calm()) ==>
      && lease.bus.world.kv.Some?
      && (var world := old(lease.bus.world);
          var shelf := Unsaved(Shelf(old(lease.task), world.outbox), handled, world.nuid, world.now);
          Core(lease.bus.world.kv.value.task) == Core(shelf.task) && lease.bus.world.outbox == shelf.outbox)
      && reply == CalmReply(lease.bus.world.kv.value.task)
  {
    ghost var t0, id := lease.task, lease.bus.world.nuid;
    var r := Recover(lease, handled);
    if r.Some? {
      return r.value;
    }
    if Core(lease.task) == Core(Attempted(t0, id)) {
      SettleCore(lease.task.(status := Publishing), Attempted(t0, id).(status := Publishing), handled, lease.bus.world.now);
    }
    reply := Resume(lease);
  }

  /** The batch is saved: mark the task publishing, and publish. */
  method Resume(lease: WorkLease) returns (reply: Reply)
    requires lease.Valid() && lease.Pc().Marking?
    modifies lease, lease.bus
    ensures Replied(lease.bus, lease.aid, old(lease.bus.world.acts[lease.aid].msg), reply) && old(lease.bus.log) <= lease.bus.log
    ensures old(lease.Calm()) ==>
      && lease.bus.world.kv.Some? && lease.bus.world.outbox == old(lease.bus.world.outbox)
      && Core(lease.bus.world.kv.value.task)
           == Core(Settle(old(lease.task).(status := Publishing), old(lease.Pc().batch), old(lease.bus.world.now)))
      && reply == CalmReply(lease.bus.world.kv.value.task)
  {
    ghost var t0 := lease.task;
    var batch := lease.Pc().batch;
    var ok := lease.Update(MarkEdit);
    if !ok {
      return Failure("mark");
    }
    SettleCore(lease.task, t0.(status := Publishing), batch, lease.bus.world.now);
    reply := PublishResult(lease);
  }

  // ---------------------------------------------------------------- claim

  /** The task a claim starts from: the stored record over a fresh one. */
  function ClaimBase(w: World, cfg: Config, ev: Event): Task {
    if w.kv.Some? then Overlay(FreshTask(cfg, ev, w.now), w.kv.value.task) else FreshTask(cfg, ev, w.now)
  }

  /** In world `w` this delivery can claim the task, starting from `base`. */
  predicate CanClaim(w: World, aid: Aid, base: Task) {
    Claimable(w.kv, w.now) && aid in w.acts && base == ClaimBase(w, w.acts[aid].cfg, w.acts[aid].ev)
  }

  /** A claim took one ID, and left the outbox and the clock alone. */
  predicate ClaimedIn(w: World, claimed: World) {
    claimed.now == w.now && claimed.outbox == w.outbox && claimed.nuid == w.nuid + 1
  }

  /** The handle of a task claimed in world `w`, starting from `base`, in a calm system. */
  ghost predicate Granted(w: World, base: Task, lease: WorkLease)
    reads lease, lease.bus
  {
    lease.Calm() && ClaimedIn(w, lease.bus.world) && Core(lease.task) == Core(base)
  }

  /** What a claim by delivery `aid` gives out in world `w`. */
  predicate GivenIn(w: World, aid: Aid, t: Task) {
    aid in w.acts && LeaseGiven(w.kv, w.now, w.acts[aid].cfg, w.acts[aid].ev, t)
  }

  /** claim: a lease, or a delay, or (with no delay) the news that the work is over. */
  method ClaimLease(bus: Bus, aid: Aid, ghost base: Task) returns (lease: WorkLease?, delay: int, failed: bool)
    requires bus.Valid() && aid in bus.world.acts && bus.world.acts[aid].pc == Delivered
    modifies bus
    ensures bus.Valid() && aid in bus.world.acts && old(bus.log) <= bus.log
    ensures bus.world.acts[aid].msg == old(bus.world.acts[aid].msg)
    ensures failed ==> lease == null && !Active(bus.world.acts[aid])
    ensures lease != null ==> fresh(lease) && lease.bus == bus && lease.aid == aid && lease.Valid() && lease.Pc() == Leased
    ensures lease == null && !failed ==> bus.world.acts[aid].pc == if delay > 0 then Leaving else Acking
    ensures old(bus.plan == [] && CanClaim(bus.world, aid, base)) ==> lease != null && Granted(old(bus.world), base, lease)
    ensures old(bus.plan == [] && Idle(bus.world.kv, bus.world.now)) ==> lease != null && GivenIn(old(bus.world), aid, lease.task)
  {
    lease, delay, failed := null, 0, false;
    var turn := bus.NextTurn();
    bus.Disturb(aid, turn.env);
    if turn.out != Good {
      bus.Crash(aid);
      failed := true;
      return;
    }
    bus.Look(aid);
    if Claimable(bus.world.acts[aid].pc.entry, bus.world.acts[aid].pc.at) {
      lease, failed := SwapClaim(bus, aid, base);
      delay := 1;
    } else {
      delay := DeclineClaim(bus, aid);
    }
  }

  /** The record is terminal, leased or waiting: the second clock reading decides between nak and ack. */
  method DeclineClaim(bus: Bus, aid: Aid) returns (delay: int)
    requires bus.Valid() && Enabled(bus.world, Decline(aid))
    modifies bus
    ensures bus.Valid() && aid in bus.world.acts && old(bus.log) <= bus.log
    ensures bus.world.acts[aid] == old(bus.world.acts[aid]).(pc := if delay > 0 then Leaving else Acking)
    ensures var t := old(bus.world.acts[aid].pc.entry.value.task); var at := old(bus.world.acts[aid].pc.at);
      if t.status == Completed || t.status == Failed then delay == 0
      else if at < t.leaseUntil then delay == t.leaseUntil - bus.world.now
      else at < t.nextAttempt && delay == t.nextAttempt - bus.world.now
  {
    var turn := bus.NextTurn();
    bus.Disturb(aid, turn.env);
    var pc := bus.world.acts[aid].pc;
    delay := Delay(pc.entry.value, pc.at, bus.world.now);
    bus.Take(Decline(aid));
  }

  /** Write the lease. A refused write ends the delivery; RetryDelay later the message comes back. */
  method SwapClaim(bus: Bus, aid: Aid, ghost base: Task) returns (lease: WorkLease?, failed: bool)
    requires bus.Valid() && aid in bus.world.acts && bus.world.acts[aid].pc.Seen?
    requires Claimable(bus.world.acts[aid].pc.entry, bus.world.acts[aid].pc.at)
    modifies bus
    ensures bus.Valid() && aid in bus.world.acts && old(bus.log) <= bus.log
    ensures bus.world.acts[aid].msg == old(bus.world.acts[aid].msg)
    ensures failed <==> lease == null
    ensures failed ==> !Active(bus.world.acts[aid])
    ensures lease != null ==> fresh(lease) && lease.bus == bus && lease.aid == aid && lease.Valid() && lease.Pc() == Leased
    ensures old(bus.plan == [] && bus.world.acts[aid].pc == Seen(bus.world.kv, bus.world.now) && CanClaim(bus.world, aid, base)) ==>
      lease != null && Granted(old(bus.world), base, lease)
    ensures old(bus.plan == [] && bus.world.acts[aid].pc == Seen(bus.world.kv, bus.world.now)) ==>
      lease != null && GivenIn(old(bus.world), aid, lease.task)
  {
    var turn := bus.NextTurn();
    bus.Disturb(aid, turn.env);
    var act := bus.world.acts[aid];
    var seen := if act.pc.entry.Some? then act.pc.entry.value.rev else 0;
    if turn.out == Good && seen == CurrentRev(bus.world) {
      lease := GrantClaim(bus, aid);
      failed := false;
    } else {
      RefuseClaim(bus, aid, turn.out.Bad? && turn.out.sent);
      lease, failed := null, true;
    }
  }

  function ClaimChange(act: Act, nuid: Id): Change
    requires act.pc.Seen?
  {
    Claim(FreshTask(act.cfg, act.ev, act.pc.at), nuid, act.pc.at + act.cfg.leaseDuration)
  }

  lemma ClaimWon(w: World, aid: Aid)
    requires aid in w.acts && w.acts[aid].pc.Seen? && Claimable(w.acts[aid].pc.entry, w.acts[aid].pc.at)
    ensures var act := w.acts[aid]; var c := ClaimChange(act, w.nuid);
      && Offers(act, c, w.now, w.nuid)
      && Expected(act, c) == (if act.pc.entry.Some? then act.pc.entry.value.rev else 0)
      && var act' := Won(act, c, w.now, w.seqNo + 1);
         && act'.pc == Leased && act'.msg == act.msg && act'.lease.Some? && act'.lease.value.rev == w.seqNo + 1
         && (act.pc == Seen(w.kv, w.now) ==> Core(act'.lease.value.task) == Core(ClaimBase(w, act.cfg, act.ev)))
         && (act.pc == Seen(w.kv, w.now) ==> LeaseGiven(w.kv, w.now, act.cfg, act.ev, act'.lease.value.task))
  {
  }

  method GrantClaim(bus: Bus, aid: Aid) returns (lease: WorkLease)
    requires bus.Valid() && aid in bus.world.acts && bus.world.acts[aid].pc.Seen?
    requires Claimable(bus.world.acts[aid].pc.entry, bus.world.acts[aid].pc.at)
    requires (if bus.world.acts[aid].pc.entry.Some? then bus.world.acts[aid].pc.entry.value.rev else 0) == CurrentRev(bus.world)
    modifies bus`world, bus`log
    ensures bus.Valid() && aid in bus.world.acts && old(bus.log) <= bus.log
    ensures fresh(lease) && lease.bus == bus && lease.aid == aid && lease.Valid() && lease.Pc() == Leased
    ensures lease.revision == CurrentRev(bus.world)
    ensures bus.world.acts[aid].msg == old(bus.world.acts[aid].msg)
    ensures bus.world.now == old(bus.world.now) && bus.world.outbox == old(bus.world.outbox)
    ensures bus.world.nuid == old(bus.world.nuid) + 1
    ensures old(bus.world.acts[aid].pc == Seen(bus.world.kv, bus.world.now)) ==>
      && Core(lease.task) == Core(ClaimBase(old(bus.world), old(bus.world.acts[aid].cfg), old(bus.world.acts[aid].ev)))
      && GivenIn(old(bus.world), aid, lease.task)
  {
    var c := ClaimChange(bus.world.acts[aid], bus.world.nuid);
    ClaimWon(bus.world, aid);
    GoodFrame(bus.world, aid, c);
    bus.Take(Cas(aid, c, Good));
    lease := new WorkLease(bus, aid);
  }

  method RefuseClaim(bus: Bus, aid: Aid, sent: bool)
    requires bus.Valid() && aid in bus.world.acts && bus.world.acts[aid].pc.Seen?
    requires Claimable(bus.world.acts[aid].pc.entry, bus.world.acts[aid].pc.at)
    modifies bus`world, bus`log
    ensures bus.Valid() && aid in bus.world.acts && old(bus.log) <= bus.log
    ensures bus.world.acts[aid] == old(bus.world.acts[aid]).(pc := Leaving)
  {
    var c := ClaimChange(bus.world.acts[aid], bus.world.nuid);
    ClaimWon(bus.world, aid);
    BadFrame(bus.world, aid, c, sent);
    bus.Take(Cas(aid, c, Bad(sent)));
  }

  /** A calm delivery of `handled` to a record that starts out as `base`, with result key `id`: the record,
      the outbox and the reply are those of one Serve. */
  predicate Served(w: World, base: Task, handled: Batch, id: Id, w': World, reply: Reply) {
    && w'.kv.Some? && reply == CalmReply(w'.kv.value.task)
    && var shelf := Serve(Shelf(base, w.outbox), handled, id, w.now);
       Core(w'.kv.value.task) == Core(shelf.task) && w'.outbox == shelf.outbox
  }

  /** One delivery of an eligible event. Whatever the rest of the system does meanwhile, every effect
      of this code is a step of the protocol (the log is a run and only grows), and the message is
      acknowledged only through it. In a calm system a claimable task is served exactly as Serve
      says, and what that comes to is a CalmOutcome. */
  method Process(bus: Bus, cfg: Config, ev: Event, aid: Aid, msg: nat, handled: Batch) returns (reply: Reply)
    requires bus.Valid() && ValidConfig(cfg) && aid !in bus.world.acts && msg !in bus.world.acked
    modifies bus
    ensures Replied(bus, aid, msg, reply) && old(bus.log) <= bus.log
    ensures old(bus.plan == [] && Claimable(bus.world.kv, bus.world.now)) ==>
      Served(old(bus.world), ClaimBase(old(bus.world), cfg, ev), handled, old(bus.world.nuid) + 1, bus.world, reply)
    ensures old(bus.plan == [] && Idle(bus.world.kv, bus.world.now)) ==>
      (reply == Acked || reply == Nak) && CalmOutcome(old(bus.world), cfg, ev, handled, old(bus.world.nuid) + 1, bus.world, reply == Acked)
  {
    if Idle(bus.world.kv, bus.world.now) { ServedOutcome(bus.log, bus.world, cfg, ev, handled, bus.world.nuid + 1); }
    reply := Handle(bus, cfg, ev, aid, msg, handled);
  }

  method Handle(bus: Bus, cfg: Config, ev: Event, aid: Aid, msg: nat, handled: Batch) returns (reply: Reply)
    requires bus.Valid() && ValidConfig(cfg) && aid !in bus.world.acts && msg !in bus.world.acked
    modifies bus
    ensures Replied(bus, aid, msg, reply) && old(bus.log) <= bus.log
    ensures old(bus.plan == [] && Claimable(bus.world.kv, bus.world.now)) ==>
      Served(old(bus.world), ClaimBase(old(bus.world), cfg, ev), handled, old(bus.world.nuid) + 1, bus.world, reply)
  {
    ghost var w, base := bus.world, ClaimBase(bus.world, cfg, ev);
    Arrive(bus, cfg, ev, aid, msg);
    ghost var v := bus.world;
    reply := Receive(bus, aid, handled, base);
    ServedSame(w, v, base, handled, w.nuid + 1, bus.world, reply);
  }

  /** One Serve, field by field. */
  lemma ServedOutcome(ls: seq<Label>, w: World, cfg: Config, ev: Event, handled: Batch, id: Id)
    requires Runs(INITIAL, ls) && w == Final(INITIAL, ls) && ValidConfig(cfg) && Idle(w.kv, w.now)
    ensures Claimable(w.kv, w.now)
    ensures forall w', reply :: Served(w, ClaimBase(w, cfg, ev), handled, id, w', reply) ==>
      (reply == Acked || reply == Nak) && CalmOutcome(w, cfg, ev, handled, id, w', reply == Acked)
  {
    var base := ClaimBase(w, cfg, ev);
    var t := if w.kv.Some? then w.kv.value.task else base;
    if w.kv.Some? { Reachable(ls, w); }
    ServeOutcome(base, w.outbox, w.now, handled, id);
    var s := Serve(WorkProgress.Shelf(base, w.outbox), handled, id, w.now);
    forall w', reply | Served(w, base, handled, id, w', reply)
      ensures (reply == Acked || reply == Nak) && CalmOutcome(w, cfg, ev, handled, id, w', reply == Acked)
    {
      OutcomeCore(base, t, w.outbox, w.now, handled, id, s.task, w'.kv.value.task, s.outbox, Terminal(s.task));
    }
  }

  /** The message reaches the replica. */
  method Arrive(bus: Bus, cfg: Config, ev: Event, aid: Aid, msg: nat)
    requires bus.Valid() && ValidConfig(cfg) && aid !in bus.world.acts && msg !in bus.world.acked
    modifies bus`world, bus`log
    ensures bus.Valid() && old(bus.log) <= bus.log && SameStores(old(bus.world), bus.world)
    ensures aid in bus.world.acts && bus.world.acts[aid] == Act(msg, cfg, ev, Delivered, None, None)
  {
    QuietFrame(bus.world, Deliver(aid, msg, cfg, ev));
    bus.Take(Deliver(aid, msg, cfg, ev));
  }

  /** claim, as far as the rest of process relies on it. */
  method Acquire(bus: Bus, aid: Aid, ghost base: Task) returns (lease: WorkLease?, delay: int, failed: bool)
    requires bus.Valid() && aid in bus.world.acts && bus.world.acts[aid].pc == Delivered
    modifies bus
    ensures bus.Valid() && aid in bus.world.acts && old(bus.log) <= bus.log
    ensures bus.world.acts[aid].msg == old(bus.world.acts[aid].msg)
    ensures failed ==> lease == null && !Active(bus.world.acts[aid])
    ensures lease != null ==> fresh(lease) && lease.bus == bus && lease.aid == aid && lease.Valid() && lease.Pc() == Leased
    ensures lease == null && !failed ==> bus.world.acts[aid].pc == if delay > 0 then Leaving else Acking
    ensures old(bus.plan == [] && CanClaim(bus.world, aid, base)) ==> lease != null && Granted(old(bus.world), base, lease)
  {
    lease, delay, failed := ClaimLease(bus, aid, base);
  }

  method Receive(bus: Bus, aid: Aid, handled: Batch, ghost base: Task) returns (reply: Reply)
    requires bus.Valid() && aid in bus.world.acts && bus.world.acts[aid].pc == Delivered
    modifies bus
    ensures Replied(bus, aid, old(bus.world.acts[aid].msg), reply) && old(bus.log) <= bus.log
    ensures old(bus.plan == [] && CanClaim(bus.world, aid, base)) ==>
      Served(old(bus.world), base, handled, old(bus.world.nuid) + 1, bus.world, reply)
  {
    var lease, delay, failed := Acquire(bus, aid, base);
    if lease == null {
      reply := Declined(bus, aid, delay, failed);
      return;
    }
    reply := ContinueClaimed(lease, handled, old(bus.world), base);
  }

  /** Continue, told as service of the world `w` before the claim. */
  method ContinueClaimed(lease: WorkLease, handled: Batch, ghost w: World, ghost base: Task) returns (reply: Reply)
    requires lease.Valid() && lease.Pc() == Leased
    modifies lease, lease.bus
    ensures Replied(lease.bus, lease.aid, old(lease.bus.world.acts[lease.aid].msg), reply) && old(lease.bus.log) <= lease.bus.log
    ensures old(Granted(w, base, lease)) ==> Served(w, base, handled, w.nuid + 1, lease.bus.world, reply)
  {
    ghost var claimed := lease.bus.world;
    reply := ContinueFrom(lease, handled, base);
    ServedSame(w, claimed, base, handled, claimed.nuid, lease.bus.world, reply);
  }


  /** Only the outbox and the clock of the world before matter. */
  lemma ServedSame(w: World, v: World, base: Task, handled: Batch, id: Id, w': World, reply: Reply)
    ensures v.outbox == w.outbox && v.now == w.now && Served(v, base, handled, id, w', reply) ==> Served(w, base, handled, id, w', reply)
  {
  }

  /** The record was not claimed: report the failure, come back after the delay, or acknowledge what is
      over. */
  method Declined(bus: Bus, aid: Aid, delay: int, failed: bool) returns (reply: Reply)
    requires bus.Valid() && aid in bus.world.acts
    requires if failed then !Active(bus.world.acts[aid]) else bus.world.acts[aid].pc == if delay > 0 then Leaving else Acking
    modifies bus
    ensures Replied(bus, aid, old(bus.world.acts[aid].msg), reply) && old(bus.log) <= bus.log
    ensures failed ==> reply.Failure? && bus.world == old(bus.world)
    ensures !failed && delay > 0 ==> reply == Nak && bus.world == old(bus.world)
  {
    if failed {
      return Failure("claim");
    }
    if delay > 0 {
      return Nak;
    }
    reply := AckMessage(bus, aid);
  }

  /** Continue, told as service of the record the claim started from. */
  method ContinueFrom(lease: WorkLease, handled: Batch, ghost base: Task) returns (reply: Reply)
    requires lease.Valid() && lease.Pc() == Leased
    modifies lease, lease.bus
    ensures Replied(lease.bus, lease.aid, old(lease.bus.world.acts[lease.aid].msg), reply) && old(lease.bus.log) <= lease.bus.log
    ensures old(lease.Calm() && Core(lease.task) == Core(base)) ==>
      Served(old(lease.bus.world), base, handled, old(lease.bus.world.nuid), lease.bus.world, reply)
  {
    if Core(lease.task) == Core(base) {
      ServeCore(lease.task, base, lease.bus.world.outbox, handled, lease.bus.world.nuid, lease.bus.world.now);
    }
    reply := Continue(lease, handled);
  }

  /** Serve looks at the core of the record only. */
  lemma ServeCore(t: Task, t': Task, outbox: map<Id, Batch>, batch: Batch, id: Id, now: nat)
    requires Core(t) == Core(t')
    ensures Core(Serve(Shelf(t, outbox), batch, id, now).task) == Core(Serve(Shelf(t', outbox), batch, id, now).task)
    ensures Serve(Shelf(t, outbox), batch, id, now).outbox == Serve(Shelf(t', outbox), batch, id, now).outbox
  {
    if t.resultKey.Some? && t.resultKey.value in outbox {
      SettleCore(t.(status := Publishing), t'.(status := Publishing), outbox[t.resultKey.value], now);
    } else {
      SettleCore(Attempted(t, id).(status := Publishing), Attempted(t', id).(status := Publishing), batch, now);
    }
  }
}
