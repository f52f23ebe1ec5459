/** The durable work protocol of sdk/work.go, for one task key, as a step relation.

    Any number of deliveries ("activations", numbered) run `process` at once. They share one
    revisioned KV record, a write-once outbox and the EVENTS stream. A step is a label; a label says
    everything that is not determined by the state: which activation moves, what the clock or the
    handler did, and whether a request succeeded. A request whose caller saw an error may still
    take effect, at once or at any later time: it waits in `writes`, `puts` or `sends`. */
module Work {
  import opened Wrappers
  import opened Events

  type Id = nat    // what nuid.Next() returns: a number never handed out before
  type Aid = nat   // one activation: one delivery of one message to one replica

  datatype Status = Running | Publishing | RetryWait | Completed | Failed

  /** Identity copied into the record when it is created. */
  datatype Origin = Origin(tool: string, eventId: string, runId: string, scope: string, input: Input)

  /** The error text of a record, by its origin. The last two carry the text they are appended to. */
  datatype Reason =
    | NoError
    | Handler(text: string)              // the saved batch's error
    | NotPublished(text: string)         // "publish: ..."
    | OutputMissing                      // "saved output is missing; scan will not be repeated"
    | ExecutionExhausted(before: Reason) // "execution budget exhausted after interruption: ..."
    | PublicationExhausted(before: Reason) // "publication budget exhausted; saved output retained: ..."

  /** The durable record. Instants are naturals; 0 is Go's zero time. */
  datatype Task = Task(
    origin: Origin, status: Status,
    attempts: nat, maxAttempts: nat, publishAttempts: nat, maxPublishAttempts: nat,
    owner: Option<Id>, leaseUntil: nat, nextAttempt: nat, deadline: nat, created: nat, updated: nat,
    scanId: Option<Id>, resultKey: Option<Id>, nextOutput: nat, emitted: nat, error: Reason)

  /** What the handler produced, as saved in the outbox. */
  datatype Batch = Batch(events: seq<Event>, error: Option<string>, retry: bool)

  datatype Record = Record(task: Task, rev: nat)

  /** The handle a successful claim returns: the owner's copy of the task and its revision. */
  datatype Lease = Lease(task: Task, rev: nat)

  /** The limits of the replica that handles the delivery. */
  datatype Config = Config(name: string, maxAttempts: nat, maxPublishAttempts: nat, retryWindow: nat, leaseDuration: nat)

  predicate ValidConfig(cfg: Config) {
    cfg.maxAttempts >= 1 && cfg.maxPublishAttempts >= 1 && cfg.retryWindow > 0 && cfg.leaseDuration > 0
  }

  /** Where an activation is in process / publishResult. */
  datatype Pc =
    | Delivered                                        // the KV read of claim is next
    | Seen(entry: Option<Record>, at: nat)             // record and first clock reading taken
    | Leased                                           // loadResult is next
    | Missing                                          // no saved batch was found; the budget check is next
    | Failing(reason: Reason)                          // finish(failed) is next
    | Starting                                         // spending an attempt is next
    | Armed(key: Id)                                   // attempt spent, handler not called yet
    | Calling(key: Id)                                 // handler running
    | Saving(key: Id, batch: Batch)                    // outbox put is next
    | Marking(key: Id, batch: Batch)                   // status publishing is next
    | Entering(key: Id, batch: Batch)                  // publishResult with outputs left
    | Loop(key: Id, batch: Batch, i: nat)              // loop head, output i next
    | Advancing(key: Id, batch: Batch, i: nat)         // output i acknowledged, index not yet moved
    | Deferring(key: Id, batch: Batch, i: nat)         // publishing output i reported an error
    | Closing(key: Id, batch: Batch, again: bool)      // all published: retry, or finish
    | Acking                                           // msg.Ack is next
    | Leaving                                          // process returned; heartbeat not stopped yet
    | Gone

  /** `me` is the owner id this activation claimed with. */
  datatype Act = Act(msg: nat, cfg: Config, ev: Event, pc: Pc, lease: Option<Lease>, me: Option<Id>)

  /** The closures handed to workLease.update, and the record claim writes. */
  datatype Change =
    | Claim(blank: Task, owner: Id, until: nat)
    | Beat(until: nat)
    | Start(id: Id)
    | Mark
    | Pass
    | Advance(i: nat)
    | Release
    | Defer(reason: Reason, next: nat)
    | Retry(reason: Reason, next: nat)
    | Finish(status: Status, reason: Reason)

  /** A CAS in flight: expects revision `rev`, whose contents were `base`. */
  datatype Write = Write(author: Aid, rev: nat, base: Option<Task>, change: Change, at: nat)

  /** One copy of output `index` of batch `key` on the EVENTS stream. */
  datatype Copy = Copy(key: Id, index: nat)

  datatype World = World(
    now: nat, nuid: Id, seqNo: nat,            // clock, id supply, revision counter of the bucket
    kv: Option<Record>,
    outbox: map<Id, Batch>,
    pub: seq<Copy>,                            // this task's copies, in stream order
    acts: map<Aid, Act>,
    acked: set<nat>,
    writes: set<Write>, puts: map<Id, Batch>, sends: map<Id, seq<nat>>,   // in flight, caller saw an error
    calls: map<Id, nat>, invocations: nat, passes: nat)                    // history: publish calls, handler calls, passes

  const INITIAL := World(1, 0, 0, None, map[], [], map[], {}, {}, map[], map[], map[], 0, 0)

  datatype Outcome = Good | Bad(sent: bool)    // sent: the request may still take effect

  datatype Label =
    | Tick(now: nat, nuid: Id, seqNo: nat)     // time passes; other keys use ids and revisions
    | Deliver(a: Aid, msg: nat, cfg: Config, ev: Event)
    | Get(a: Aid)
    | Decline(a: Aid)
    | Cas(a: Aid, change: Change, out: Outcome)
    | Load(a: Aid)
    | Judge(a: Aid)                            // a branch of process that reads the clock
    | Call(a: Aid)
    | Return(a: Aid, batch: Batch)
    | Put(a: Aid, out: Outcome)
    | Publish(a: Aid, dup: bool, out: Outcome)
    | Ack(a: Aid)
    | Stop(a: Aid)                             // crash, any other error return, or the end of the heartbeat
    | LandWrite(w: Write)
    | LandPut(key: Id)
    | LandSend(key: Id, j: nat, dup: bool)

  // ---------------------------------------------------------------- records

  predicate Terminal(t: Task) {
    t.status == Completed || t.status == Failed
  }

  function TaskOf(w: World): Option<Task> {
    if w.kv.Some? then Some(w.kv.value.task) else None
  }

  function CurrentRev(w: World): nat {
    if w.kv.Some? then w.kv.value.rev else 0
  }

  function FreshTask(cfg: Config, ev: Event, at: nat): Task {
    Task(Origin(cfg.name, ev.id, ev.runId, Scope(ev), AsInput(ev)), Running,
         0, cfg.maxAttempts, 0, cfg.maxPublishAttempts,
         None, 0, 0, at + cfg.retryWindow, at, 0, None, None, 0, 0, NoError)
  }

  function Or(stored: string, blank: string): string {
    if stored == "" then blank else stored
  }

  /** claim decodes the stored JSON over a freshly filled task: fields the encoder omitted because
      they were empty keep the fresh value. */
  function OverlayTarget(blank: Target, stored: Target): Target {
    Target(Or(stored.host, blank.host), Or(stored.name, blank.name), Or(stored.nameRole, blank.nameRole),
           if stored.port == 0 then blank.port else stored.port, Or(stored.proto, blank.proto),
           Or(stored.url, blank.url), Or(stored.sni, blank.sni), Or(stored.httpHost, blank.httpHost))
  }

  function Overlay(blank: Task, stored: Task): Task {
    stored.(origin := Origin(stored.origin.tool, stored.origin.eventId,
                             Or(stored.origin.runId, blank.origin.runId), Or(stored.origin.scope, blank.origin.scope),
                             Input(stored.origin.input.kind, stored.origin.input.value,
                                   OverlayTarget(blank.origin.input.target, stored.origin.input.target))))
  }

  /** The record a change writes over `base`. */
  function Changed(base: Option<Task>, c: Change, at: nat): Task
    requires base.Some? || c.Claim?
  {
    match c
    case Claim(blank, newOwner, until) =>
      var t := if base.Some? then Overlay(blank, base.value) else blank;
      t.(owner := Some(newOwner), leaseUntil := until, updated := at)
    case Beat(until) =>
      var t := base.value;
      (if t.owner.Some? then t.(leaseUntil := until) else t).(updated := at)
    case Start(id) =>
      base.value.(status := Running, scanId := Some(id), resultKey := Some(id), attempts := base.value.attempts + 1,
                  publishAttempts := 0, nextOutput := 0, nextAttempt := 0, updated := at)
    case Mark => base.value.(status := Publishing, updated := at)
    case Pass => base.value.(publishAttempts := base.value.publishAttempts + 1, updated := at)
    case Advance(i) => base.value.(nextOutput := i + 1, emitted := base.value.emitted + 1, updated := at)
    case Release => base.value.(owner := None, leaseUntil := 0, updated := at)
    case Defer(reason, next) => base.value.(error := reason, owner := None, leaseUntil := 0, nextAttempt := next, updated := at)
    case Retry(reason, next) =>
      base.value.(status := RetryWait, error := reason, resultKey := None, owner := None,
                  leaseUntil := 0, nextAttempt := next, updated := at)
    case Finish(status, reason) =>
      base.value.(status := status, error := reason, owner := None, leaseUntil := 0, nextAttempt := 0, updated := at)
  }

  // ---------------------------------------------------------------- what an activation may write

  /** claim takes the lease: no record, or one that is neither terminal, leased nor waiting. */
  predicate Claimable(entry: Option<Record>, at: nat) {
    entry.None? || (!Terminal(entry.value.task) && entry.value.task.leaseUntil <= at && entry.value.task.nextAttempt <= at)
  }

  /** claim's second clock reading: the delay it returns for a record it declines. */
  function Delay(entry: Record, at: nat, now: nat): int {
    if Terminal(entry.task) then 0
    else if entry.task.leaseUntil > at then entry.task.leaseUntil - now
    else entry.task.nextAttempt - now
  }

  predicate BudgetSpent(t: Task, now: nat) {
    t.attempts >= t.maxAttempts || now > t.deadline
  }

  predicate Judges(pc: Pc) {
    pc == Missing || (pc.Loop? && pc.i >= |pc.batch.events|)
  }

  /** The branches that read the clock: is the execution budget spent, and is there another attempt? */
  function Judged(pc: Pc, t: Task, now: nat): Pc {
    match pc
    case Missing =>
      if t.status == Publishing then Failing(OutputMissing)
      else if BudgetSpent(t, now) then Failing(ExecutionExhausted(t.error))
      else Starting
    case Loop(key, batch, _) => Closing(key, batch, Retries(t, batch, now))
    case _ => pc
  }

  /** publishResult schedules another execution instead of finishing. */
  predicate Retries(t: Task, batch: Batch, now: nat) {
    batch.error.Some? && batch.retry && t.attempts < t.maxAttempts && now < t.deadline
  }

  function BatchReason(batch: Batch): Reason {
    if batch.error.Some? then Handler(batch.error.value) else NoError
  }

  /** The changes the code at `act.pc` may hand to the KV store at time `now`. Beat belongs to the
      heartbeat goroutine and is possible as long as the lease handle exists. */
  predicate Offers(act: Act, c: Change, now: nat, nuid: Id) {
    if c.Beat? then act.lease.Some? && act.pc != Gone && c.until == now + act.cfg.leaseDuration
    else match act.pc
      case Seen(entry, at) =>
        && Claimable(entry, at)
        && c == Claim(FreshTask(act.cfg, act.ev, at), nuid, at + act.cfg.leaseDuration)
      case Failing(reason) => act.lease.Some? && c == Finish(Failed, reason)
      case Starting => act.lease.Some? && c == Start(nuid)
      case Marking(_, _) => act.lease.Some? && c == Mark
      case Entering(_, batch) =>
        && act.lease.Some?
        && var t := act.lease.value.task;
           if t.publishAttempts >= t.maxPublishAttempts
           then c == Finish(Failed, PublicationExhausted(t.error))
           else c == Pass
      case Loop(_, batch, i) => act.lease.Some? && i < |batch.events| && c == Release
      case Closing(_, batch, again) =>
        && act.lease.Some?
        && if again then c.Retry? && c.reason == BatchReason(batch) && c.next >= now
           else c == Finish(if batch.error.Some? then Failed else Completed, BatchReason(batch))
      case Advancing(_, _, i) => act.lease.Some? && c == Advance(i)
      case Deferring(_, _, _) => act.lease.Some? && c.Defer? && c.reason.NotPublished? && c.next >= now
      case _ => false
  }

  function ChangeTime(act: Act, c: Change, now: nat): nat {
    if c.Claim? && act.pc.Seen? then act.pc.at else now
  }

  function Expected(act: Act, c: Change): nat {
    if c.Claim? then (if act.pc.Seen? && act.pc.entry.Some? then act.pc.entry.value.rev else 0)
    else if act.lease.Some? then act.lease.value.rev else 0
  }

  function BaseOf(act: Act, c: Change): Option<Task> {
    if c.Claim? then (if act.pc.Seen? && act.pc.entry.Some? then Some(act.pc.entry.value.task) else None)
    else if act.lease.Some? then Some(act.lease.value.task) else None
  }

  /** Where the activation goes once its write has been acknowledged. */
  function After(act: Act, c: Change, t: Task): Pc {
    match c
    case Beat(_) => act.pc
    case Claim(_, _, _) => Leased
    case Start(id) => Armed(id)
    case Mark => if act.pc.Marking? then EnterPc(act.pc.key, act.pc.batch, t) else Leaving
    case Pass => if act.pc.Entering? then Loop(act.pc.key, act.pc.batch, t.nextOutput) else Leaving
    case Advance(i) => if act.pc.Advancing? then Loop(act.pc.key, act.pc.batch, i + 1) else Leaving
    case Finish(_, _) => Acking
    case _ => Leaving
  }

  /** publishResult spends a pass only when outputs are left. */
  function EnterPc(key: Id, batch: Batch, t: Task): Pc {
    if t.nextOutput < |batch.events| then Entering(key, batch) else Loop(key, batch, t.nextOutput)
  }

  // ---------------------------------------------------------------- steps

  function Calls(w: World, key: Id): nat {
    if key in w.calls then w.calls[key] else 0
  }

  function Sends(w: World, key: Id): seq<nat> {
    if key in w.sends then w.sends[key] else []
  }

  /** Put `t` in the record, at the next revision of the bucket. */
  function Stored(w: World, t: Task, c: Change): World {
    w.(kv := Some(Record(t, w.seqNo + 1)), seqNo := w.seqNo + 1, passes := if c.Pass? then w.passes + 1 else w.passes)
  }

  function Removed(s: seq<nat>, j: nat): seq<nat>
    requires j < |s|
  {
    s[..j] + s[j + 1..]
  }

  /** What can happen next, whatever the broker takes for a duplicate. */
  predicate Possible(w: World, l: Label) {
    match l
    case Tick(now, nuid, seqNo) => w.now <= now && w.nuid <= nuid && w.seqNo <= seqNo
    case Deliver(a, msg, cfg, ev) => a !in w.acts && msg !in w.acked && ValidConfig(cfg)
    case Get(a) => a in w.acts && w.acts[a].pc == Delivered
    case Decline(a) => a in w.acts && w.acts[a].pc.Seen? && !Claimable(w.acts[a].pc.entry, w.acts[a].pc.at)
    case Cas(a, c, out) =>
      && a in w.acts && Offers(w.acts[a], c, w.now, w.nuid)
      && (out == Good ==> Expected(w.acts[a], c) == CurrentRev(w))
    case Load(a) => a in w.acts && w.acts[a].pc == Leased && w.acts[a].lease.Some?
    case Judge(a) => a in w.acts && w.acts[a].lease.Some? && Judges(w.acts[a].pc)
    case Call(a) => a in w.acts && w.acts[a].pc.Armed?
    case Return(a, _) => a in w.acts && w.acts[a].pc.Calling?
    case Put(a, _) => a in w.acts && w.acts[a].pc.Saving?
    case Publish(a, _, _) => a in w.acts && w.acts[a].pc.Loop? && w.acts[a].pc.i < |w.acts[a].pc.batch.events|
    case Ack(a) => a in w.acts && w.acts[a].pc == Acking
    case Stop(a) => a in w.acts
    case LandWrite(wr) => wr in w.writes && wr.rev == CurrentRev(w) && (wr.base.Some? || wr.change.Claim?)
    case LandPut(key) => key in w.puts
    case LandSend(key, j, _) => key in w.sends && j < |w.sends[key]|
  }

  /** A message dropped as a duplicate is one: this very output is on the stream already. WorkIds says when
      that is so for a broker that goes by message IDs. */
  predicate Genuine(w: World, l: Label)
    requires Possible(w, l)
  {
    match l
    case Publish(a, dup, _) => dup ==> Copy(w.acts[a].pc.key, w.acts[a].pc.i) in w.pub
    case LandSend(key, j, dup) => dup ==> Copy(key, w.sends[key][j]) in w.pub
    case _ => true
  }

  /** The steps of the protocol. */
  predicate Enabled(w: World, l: Label) {
    Possible(w, l) && Genuine(w, l)
  }

  /** The activation that takes the step, if any. */
  function Actor(l: Label): Option<Aid> {
    match l
    case Deliver(a, _, _, _) => Some(a)
    case Get(a) => Some(a)
    case Decline(a) => Some(a)
    case Cas(a, _, _) => Some(a)
    case Load(a) => Some(a)
    case Judge(a) => Some(a)
    case Call(a) => Some(a)
    case Return(a, _) => Some(a)
    case Put(a, _) => Some(a)
    case Publish(a, _, _) => Some(a)
    case Ack(a) => Some(a)
    case Stop(a) => Some(a)
    case _ => None
  }

  /** The activation after its step. */
  function NextAct(w: World, l: Label): Act
    requires Possible(w, l) && Actor(l).Some?
  {
    match l
    case Deliver(a, msg, cfg, ev) => Act(msg, cfg, ev, Delivered, None, None)
    case Get(a) => w.acts[a].(pc := Seen(w.kv, w.now))
    case Decline(a) =>
      var pc := w.acts[a].pc;
      w.acts[a].(pc := if Delay(pc.entry.value, pc.at, w.now) > 0 then Leaving else Acking)
    case Cas(a, c, out) => if out == Good then Won(w.acts[a], c, w.now, w.seqNo + 1) else Lost(w.acts[a], c)
    case Load(a) => w.acts[a].(pc := Loaded(w, w.acts[a].lease.value.task))
    case Judge(a) => w.acts[a].(pc := Judged(w.acts[a].pc, w.acts[a].lease.value.task, w.now))
    case Call(a) => w.acts[a].(pc := Calling(w.acts[a].pc.key))
    case Return(a, batch) => w.acts[a].(pc := Saving(w.acts[a].pc.key, batch))
    case Put(a, out) => w.acts[a].(pc := if out == Good then Marking(w.acts[a].pc.key, w.acts[a].pc.batch) else Leaving)
    case Publish(a, _, out) =>
      var pc := w.acts[a].pc;
      w.acts[a].(pc := if out == Good then Advancing(pc.key, pc.batch, pc.i) else Deferring(pc.key, pc.batch, pc.i))
    case Ack(a) => w.acts[a].(pc := Leaving)
    case Stop(a) => w.acts[a].(pc := Gone)
  }

  /** loadResult: an empty result key counts as not found. */
  function Loaded(w: World, t: Task): Pc {
    if t.resultKey.Some? && t.resultKey.value in w.outbox
    then Marking(t.resultKey.value, w.outbox[t.resultKey.value])
    else Missing
  }

  /** The activation after the store accepted its write, at revision `rev`. */
  function Won(act: Act, c: Change, now: nat, rev: nat): Act
    requires BaseOf(act, c).Some? || c.Claim?
  {
    var t := Changed(BaseOf(act, c), c, ChangeTime(act, c, now));
    act.(pc := After(act, c, t), lease := Some(Lease(t, rev)), me := if c.Claim? then Some(c.owner) else act.me)
  }

  /** The activation after its write reported an error: only a heartbeat lets process go on. */
  function Lost(act: Act, c: Change): Act {
    if c.Beat? then act else act.(pc := Leaving)
  }

  /** The shared state after the step. */
  function Shared(w: World, l: Label): World
    requires Possible(w, l)
  {
    match l
    case Tick(now, nuid, seqNo) => w.(now := now, nuid := nuid, seqNo := seqNo)
    case Cas(a, c, out) => SharedCas(w, a, c, out)
    case Call(a) => w.(invocations := w.invocations + 1)
    case Put(a, out) =>
      var pc := w.acts[a].pc;
      if out == Good then w.(outbox := w.outbox[pc.key := pc.batch])
      else if out.sent then w.(puts := w.puts[pc.key := pc.batch])
      else w
    case Publish(a, dup, out) => SharedPublish(w, a, dup, out)
    case Ack(a) => w.(acked := w.acked + {w.acts[a].msg})
    case LandWrite(wr) => Stored(w, Changed(wr.base, wr.change, wr.at), wr.change).(writes := w.writes - {wr})
    case LandPut(key) => w.(outbox := w.outbox[key := w.puts[key]], puts := w.puts - {key})
    case LandSend(key, j, dup) =>
      w.(pub := if dup then w.pub else w.pub + [Copy(key, w.sends[key][j])],
         sends := w.sends[key := Removed(w.sends[key], j)])
    case _ => w
  }

  function SharedCas(w: World, a: Aid, c: Change, out: Outcome): World
    requires Possible(w, Cas(a, c, out))
  {
    var act := w.acts[a];
    var at := ChangeTime(act, c, w.now);
    var w1 := if c.Claim? || c.Start? then w.(nuid := w.nuid + 1) else w;
    if out == Good then Stored(w1, Changed(BaseOf(act, c), c, at), c)
    else if out.sent then w1.(writes := w.writes + {Write(a, Expected(act, c), BaseOf(act, c), c, at)})
    else w1
  }

  function SharedPublish(w: World, a: Aid, dup: bool, out: Outcome): World
    requires Possible(w, Publish(a, dup, out))
  {
    var pc := w.acts[a].pc;
    var w1 := w.(calls := w.calls[pc.key := Calls(w, pc.key) + 1]);
    if out == Good then (if dup then w1 else w1.(pub := w.pub + [Copy(pc.key, pc.i)]))
    else if out.sent then w1.(sends := w.sends[pc.key := Sends(w, pc.key) + [pc.i]])
    else w1
  }

  function Apply(w: World, l: Label): World
    requires Possible(w, l)
  {
    if Actor(l).Some? then Shared(w, l).(acts := w.acts[Actor(l).value := NextAct(w, l)]) else Shared(w, l)
  }

  // ---------------------------------------------------------------- runs

  predicate Runs(w: World, ls: seq<Label>)
    decreases |ls|
  {
    ls == [] || (Enabled(w, ls[0]) && Runs(Apply(w, ls[0]), ls[1..]))
  }

  function Final(w: World, ls: seq<Label>): World
    requires Runs(w, ls)
    decreases |ls|
  {
    if ls == [] then w else Final(Apply(w, ls[0]), ls[1..])
  }

  /** Runs compose. */
  lemma {:induction false} RunsCompose(w: World, ls: seq<Label>, more: seq<Label>)
    requires Runs(w, ls) && Runs(Final(w, ls), more)
    ensures Runs(w, ls + more) && Final(w, ls + more) == Final(Final(w, ls), more)
    decreases |ls|
  {
    if ls == [] {
      assert ls + more == more;
    } else {
      assert (ls + more)[1..] == ls[1..] + more;
      RunsCompose(Apply(w, ls[0]), ls[1..], more);
    }
  }

  lemma RunOne(w: World, l: Label)
    requires Enabled(w, l)
    ensures Runs(w, [l]) && Final(w, [l]) == Apply(w, l)
  {
    assert [l][1..] == [];
  }

  lemma RunSnoc(w: World, ls: seq<Label>, l: Label)
    requires Runs(w, ls) && Enabled(Final(w, ls), l)
    ensures Runs(w, ls + [l]) && Final(w, ls + [l]) == Apply(Final(w, ls), l)
  {
    RunOne(Final(w, ls), l);
    RunsCompose(w, ls, [l]);
  }
}
