/** The inductive invariant of the work protocol. Each group is preserved by every step; the group's
    theorem for all runs is in WorkTheorems. */
module WorkInvariant {
  import opened Wrappers
  import opened Work

  // ---------------------------------------------------------------- vocabulary

  /** The batch an activation is working on. */
  function KeyAt(pc: Pc): Option<Id> {
    match pc
    case Armed(key) => Some(key)
    case Calling(key) => Some(key)
    case Saving(key, _) => Some(key)
    case Marking(key, _) => Some(key)
    case Entering(key, _) => Some(key)
    case Loop(key, _, _) => Some(key)
    case Advancing(key, _, _) => Some(key)
    case Deferring(key, _, _) => Some(key)
    case Closing(key, _, _) => Some(key)
    case _ => None
  }

  predicate HasBatch(pc: Pc) {
    pc.Marking? || pc.Entering? || pc.Loop? || pc.Advancing? || pc.Deferring? || pc.Closing?
  }

  /** The activation owns the unsaved result of its attempt. */
  predicate Executing(pc: Pc) {
    pc.Armed? || pc.Calling? || pc.Saving?
  }

  /** process has not returned. */
  predicate Active(act: Act) {
    act.pc != Leaving && act.pc != Gone
  }

  predicate Holding(pc: Pc) {
    pc == Leased || pc == Missing || pc.Failing? || pc == Starting || Executing(pc) || HasBatch(pc)
  }

  predicate WillPublish(act: Act, key: Id) {
    act.pc.Loop? && act.pc.key == key && act.pc.i < |act.pc.batch.events|
  }

  function Ready(w: World, key: Id): set<Aid> {
    set a | a in w.acts && WillPublish(w.acts[a], key)
  }

  function ArmedActs(w: World): set<Aid> {
    set a | a in w.acts && w.acts[a].pc.Armed?
  }

  function Copies(pub: seq<Copy>, key: Id): nat {
    if pub == [] then 0
    else Copies(pub[..|pub| - 1], key) + if pub[|pub| - 1].key == key then 1 else 0
  }

  function Distinct(pub: seq<Copy>): set<Copy> {
    set c | c in pub
  }

  predicate Current(w: World, key: Id) {
    w.kv.Some? && w.kv.value.task.resultKey == Some(key)
  }

  predicate Published(s: Status) {
    s == Publishing || s == Completed || s == Failed
  }

  /** Publishing (key, i) now keeps first copies in batch order. */
  predicate Sendable(w: World, key: Id, i: nat) {
    || Copy(key, i) in w.pub
    || (Current(w, key) && w.kv.value.task.nextOutput == i && Published(w.kv.value.task.status))
  }

  predicate Releasing(c: Change) {
    c.Release? || c.Defer? || c.Retry? || c.Finish?
  }

  predicate BlankTask(t: Task) {
    && t.status == Running && t.attempts == 0 && t.publishAttempts == 0 && t.nextOutput == 0 && t.emitted == 0
    && t.resultKey.None? && t.nextAttempt == 0 && t.maxAttempts >= 1
  }

  // ---------------------------------------------------------------- fencing

  predicate HandleOk(w: World, l: Lease) {
    w.kv.Some? && l.rev <= w.kv.value.rev && (l.rev == w.kv.value.rev ==> l.task == w.kv.value.task)
  }

  predicate SeenOk(w: World, entry: Option<Record>, at: nat) {
    && at <= w.now
    && (entry.Some? ==> 0 < entry.value.rev <= CurrentRev(w) && (entry.value.rev == CurrentRev(w) ==> entry == w.kv))
  }

  predicate WriteOk(w: World, wr: Write) {
    && wr.rev <= CurrentRev(w)
    && (wr.rev == CurrentRev(w) ==> wr.base == TaskOf(w))
    && (wr.base.Some? || wr.change.Claim?)
    && (wr.change.Claim? ==> BlankTask(wr.change.blank))
  }

  ghost predicate Fenced(w: World) {
    && (w.kv.Some? ==> 0 < w.kv.value.rev <= w.seqNo)
    && (forall a :: a in w.acts && w.acts[a].lease.Some? ==> HandleOk(w, w.acts[a].lease.value))
    && (forall a, b :: a in w.acts && b in w.acts && a != b && w.acts[a].lease.Some? && w.acts[b].lease.Some?
          ==> w.acts[a].lease.value.rev != w.acts[b].lease.value.rev)
    && (forall a :: a in w.acts && w.acts[a].pc.Seen? ==> SeenOk(w, w.acts[a].pc.entry, w.acts[a].pc.at))
    && (forall wr :: wr in w.writes ==> WriteOk(w, wr))
  }

  // ---------------------------------------------------------------- one activation by itself

  /** What every version of the record says of itself. */
  predicate Sound(t: Task) {
    && t.attempts <= t.maxAttempts && t.publishAttempts <= t.maxPublishAttempts && t.maxAttempts >= 1
    && (t.status == Running ==> t.nextOutput == 0 && t.publishAttempts == 0)
    && (t.status == RetryWait ==> t.resultKey.None? && t.attempts >= 1)
    && (t.status == Publishing || t.status == Completed ==> t.resultKey.Some?)
    && (t.resultKey.Some? ==> t.attempts >= 1)
    && (t.status == Completed ==> t.error == NoError)
    && (t.owner.None? ==> t.leaseUntil == 0)
    && (Terminal(t) ==> t.owner.None? && t.nextAttempt == 0)
  }

  /** What an activation's own copy of the task says at each program point. */
  predicate CopyOk(act: Act) {
    && ValidConfig(act.cfg)
    && (act.pc == Delivered ==> act.lease.None?)
    && (act.pc.Seen? ==> act.lease.None? && (act.pc.entry.Some? ==> Sound(act.pc.entry.value.task)))
    && (Holding(act.pc) ==> act.lease.Some?)
    && (act.lease.Some? <==> act.me.Some?)
    && (act.lease.Some? ==> LeasedOk(act, act.lease.value.task))
  }

  predicate LeasedOk(act: Act, t: Task) {
    && Sound(t)
    && (t.owner.Some? ==> t.owner == act.me)
    && (Holding(act.pc) ==> !Terminal(t) && t.owner.Some?)
    && (KeyAt(act.pc).Some? ==> t.resultKey == KeyAt(act.pc))
    && (Executing(act.pc) ==> t.status == Running)
    && (act.pc.Marking? ==> t.status != RetryWait && t.nextOutput <= |act.pc.batch.events|)
    && (act.pc.Entering? ==> t.status == Publishing && t.nextOutput < |act.pc.batch.events|)
    && (act.pc.Loop? ==> t.status == Publishing && t.nextOutput == act.pc.i <= |act.pc.batch.events|)
    && (act.pc.Advancing? || act.pc.Deferring? ==>
          t.status == Publishing && t.nextOutput == act.pc.i < |act.pc.batch.events|)
    && (act.pc.Closing? ==> t.status == Publishing && t.nextOutput == |act.pc.batch.events|)
    && (act.pc == Starting || (act.pc.Closing? && act.pc.again) ==> t.attempts < t.maxAttempts)
  }

  ghost predicate CopiesOk(w: World) {
    forall a :: a in w.acts ==> CopyOk(w.acts[a])
  }

  // ---------------------------------------------------------------- fresh identifiers

  predicate BelowOpt(o: Option<Id>, n: Id) {
    o.Some? ==> o.value < n
  }

  predicate TaskBelow(t: Task, n: Id) {
    BelowOpt(t.resultKey, n) && BelowOpt(t.owner, n)
  }

  predicate ActBelow(act: Act, n: Id) {
    && BelowOpt(KeyAt(act.pc), n) && BelowOpt(act.me, n)
    && (act.lease.Some? ==> TaskBelow(act.lease.value.task, n))
    && (act.pc.Seen? && act.pc.entry.Some? ==> TaskBelow(act.pc.entry.value.task, n))
  }

  predicate WriteBelow(wr: Write, n: Id) {
    && (wr.change.Start? ==> wr.change.id < n)
    && (wr.change.Claim? ==> wr.change.owner < n && TaskBelow(wr.change.blank, n))
    && (wr.base.Some? ==> TaskBelow(wr.base.value, n))
  }

  ghost predicate IdsBelow(w: World) {
    && (forall key :: key in w.outbox || key in w.puts || key in w.calls || key in w.sends ==> key < w.nuid)
    && (forall c :: c in w.pub ==> c.key < w.nuid)
    && (forall a :: a in w.acts ==> ActBelow(w.acts[a], w.nuid))
    && (w.kv.Some? ==> TaskBelow(w.kv.value.task, w.nuid))
    && (forall wr :: wr in w.writes ==> WriteBelow(wr, w.nuid))
  }

  /** Nothing has ever been saved, sent or started under this result key. */
  ghost predicate Virgin(w: World, id: Id) {
    && id !in w.outbox && id !in w.puts && id !in w.calls && id !in w.sends
    && (forall c :: c in w.pub ==> c.key != id)
    && (forall a :: a in w.acts ==> KeyAt(w.acts[a].pc) != Some(id))
    && !Current(w, id)
  }

  // ---------------------------------------------------------------- why a write is correct

  /** The saved batch behind task `t`, and all of it published as far as `t.nextOutput` says. */
  predicate Exhausted(w: World, t: Task) {
    t.resultKey.Some? && t.resultKey.value in w.outbox && t.nextOutput == |w.outbox[t.resultKey.value].events|
  }

  predicate Unfinished(w: World, t: Task) {
    t.resultKey.Some? && t.resultKey.value in w.outbox && t.nextOutput < |w.outbox[t.resultKey.value].events|
  }

  /** The facts that make writing change `c` over a record `t` correct. */
  ghost predicate JustifiedOver(w: World, t: Task, c: Change) {
    match c
    case Claim(_, _, _) => !Terminal(t) && t.leaseUntil <= w.now && t.nextAttempt <= w.now
    case Beat(until) => t.owner.Some? ==> t.leaseUntil <= until
    case Start(id) => (t.status == Running || t.status == RetryWait) && t.attempts < t.maxAttempts && Virgin(w, id)
    case Mark => (t.status == Running || t.status == Publishing) && t.resultKey.Some? && t.resultKey.value in w.outbox
    case Pass => t.status == Publishing && t.publishAttempts < t.maxPublishAttempts && Unfinished(w, t)
    case Advance(i) => t.status == Publishing && t.nextOutput == i && Unfinished(w, t) && Copy(t.resultKey.value, i) in w.pub
    case Release => t.status == Publishing
    case Defer(_, _) => t.status == Publishing
    case Retry(_, _) => t.status == Publishing && Exhausted(w, t) && t.attempts < t.maxAttempts
    case Finish(status, reason) =>
      && !Terminal(t)
      && (status == Completed || status == Failed)
      && (status == Completed ==>
            t.status == Publishing && Exhausted(w, t) && w.outbox[t.resultKey.value].error.None? && reason == NoError)
  }

  ghost predicate Justified(w: World, c: Change) {
    && (c.Claim? ==> BlankTask(c.blank))
    && (if w.kv.Some? then JustifiedOver(w, w.kv.value.task, c) else c.Claim?)
  }

  ghost predicate PendingOk(w: World) {
    forall wr :: wr in w.writes && wr.rev == CurrentRev(w) ==> Justified(w, wr.change)
  }

  // ---------------------------------------------------------------- the record and the outbox

  function SavedCount(w: World, key: Id): nat {
    if key in w.outbox then |w.outbox[key].events| else 0
  }

  predicate TaskOk(w: World) {
    w.kv.Some? ==>
      var t := w.kv.value.task;
      && Sound(t)
      && (t.status == Publishing || t.status == Completed ==> t.resultKey.value in w.outbox)
      && (t.resultKey.Some? ==> t.nextOutput <= SavedCount(w, t.resultKey.value))
      && (t.status == Completed ==> Exhausted(w, t) && w.outbox[t.resultKey.value].error.None?)
  }

  predicate SavedFor(w: World, t: Task) {
    t.resultKey.Some? && t.resultKey.value in w.outbox && t.nextOutput <= |w.outbox[t.resultKey.value].events|
  }

  /** Result keys belong to one attempt, and what is published under them is what was saved. */
  ghost predicate SavedOk(w: World) {
    && (w.kv.None? ==> w.outbox == map[] && w.puts == map[])
    && (forall a :: a in w.acts && Executing(w.acts[a].pc) ==> w.acts[a].pc.key !in w.outbox && w.acts[a].pc.key !in w.puts)
    && (forall a, b :: a in w.acts && b in w.acts && a != b && Executing(w.acts[a].pc) && Executing(w.acts[b].pc)
          ==> w.acts[a].pc.key != w.acts[b].pc.key)
    && (forall key :: key in w.puts ==> key !in w.outbox)
    && (forall a :: a in w.acts && HasBatch(w.acts[a].pc) ==>
          w.acts[a].pc.key in w.outbox && w.outbox[w.acts[a].pc.key] == w.acts[a].pc.batch)
    && (forall a :: a in w.acts && w.acts[a].lease.Some? && w.acts[a].lease.value.task.status == Publishing ==>
          SavedFor(w, w.acts[a].lease.value.task))
    && (forall a :: a in w.acts && (w.acts[a].pc == Missing || w.acts[a].pc == Starting) ==>
          w.acts[a].lease.Some? && w.acts[a].lease.value.task.status != Publishing)
    && (forall a :: a in w.acts ==> w.acts[a].pc != Failing(OutputMissing))
  }

  // ---------------------------------------------------------------- the stream

  predicate CopyFits(w: World, c: Copy) {
    && w.kv.Some? && c.key in w.outbox && c.index < |w.outbox[c.key].events|
    && (Current(w, c.key) ==> c.index <= w.kv.value.task.nextOutput && Published(w.kv.value.task.status))
  }

  ghost predicate InOrder(pub: seq<Copy>) {
    forall p, j :: 0 <= p < |pub| && 0 <= j < pub[p].index ==> Copy(pub[p].key, j) in pub[..p]
  }

  predicate Prefix(w: World) {
    w.kv.Some? && w.kv.value.task.resultKey.Some? ==>
      forall j :: 0 <= j < w.kv.value.task.nextOutput ==> Copy(w.kv.value.task.resultKey.value, j) in w.pub
  }

  /** The activations and sends in flight of StreamOk, for the record of `w` and the activations `acts`. */
  ghost predicate Sending(w: World, acts: map<Aid, Act>) {
    LoopsReady(w, acts) && AdvancesSent(w, acts) && SendsReady(w)
  }

  ghost predicate LoopsReady(w: World, acts: map<Aid, Act>) {
    forall a :: a in acts && acts[a].pc.Loop? && acts[a].pc.i < |acts[a].pc.batch.events| ==> Sendable(w, acts[a].pc.key, acts[a].pc.i)
  }

  ghost predicate AdvancesSent(w: World, acts: map<Aid, Act>) {
    forall a :: a in acts && acts[a].pc.Advancing? ==> Copy(acts[a].pc.key, acts[a].pc.i) in w.pub
  }

  predicate SendFits(w: World, key: Id, i: nat) {
    key in w.outbox && i < |w.outbox[key].events| && Sendable(w, key, i)
  }

  ghost predicate SendsReady(w: World) {
    forall key, j :: key in w.sends && 0 <= j < |w.sends[key]| ==> SendFits(w, key, w.sends[key][j])
  }

  ghost predicate StreamOk(w: World) {
    && (forall c :: c in w.pub ==> CopyFits(w, c))
    && InOrder(w.pub)
    && Prefix(w)
    && Sending(w, w.acts)
  }

  // ---------------------------------------------------------------- accounting

  function Emitted(w: World): nat {
    if w.kv.Some? then w.kv.value.task.emitted else 0
  }

  /** One output may be on the stream before the index says so. */
  function Extra(w: World): nat {
    if w.kv.Some? && w.kv.value.task.resultKey.Some? &&
       Copy(w.kv.value.task.resultKey.value, w.kv.value.task.nextOutput) in w.pub then 1 else 0
  }

  predicate Accounted(w: World) {
    |Distinct(w.pub)| == Emitted(w) + Extra(w)
  }

  /** How many publish calls batch `key` may have cost so far. */
  function Cap(w: World, key: Id): int {
    if key !in w.outbox || w.kv.None? then 0
    else
      var n := |w.outbox[key].events|;
      var t := w.kv.value.task;
      if n == 0 then 0
      else if Current(w, key) then t.nextOutput + t.publishAttempts - (if t.nextOutput == n then 1 else 0)
      else n + t.maxPublishAttempts - 1
  }

  ghost predicate CallsOk(w: World) {
    && (forall key :: Copies(w.pub, key) + |Sends(w, key)| <= Calls(w, key))
    && (forall key :: Calls(w, key) + |Ready(w, key)| <= Cap(w, key))
  }

  predicate BudgetOk(w: World) {
    && w.invocations + |ArmedActs(w)| <= (if w.kv.Some? then w.kv.value.task.attempts else 0)
    && (w.kv.None? ==> w.passes == 0)
    && (w.kv.Some? ==>
          var t := w.kv.value.task;
          if t.attempts == 0 then w.passes == 0
          else w.passes <= (t.attempts - 1) * t.maxPublishAttempts + t.publishAttempts)
  }

  // ---------------------------------------------------------------- leases

  predicate LeaseOk(w: World, act: Act) {
    act.lease.Some? ==>
      var t := act.lease.value.task;
      && t.leaseUntil <= w.now + act.cfg.leaseDuration
      && (Active(act) && t.leaseUntil > w.now ==>
            w.kv.Some? && w.kv.value.task.owner == act.me && t.leaseUntil <= w.kv.value.task.leaseUntil)
  }

  ghost predicate Exclusive(w: World) {
    && (forall a, b :: a in w.acts && b in w.acts && a != b && w.acts[a].me.Some? ==> w.acts[a].me != w.acts[b].me)
    && (forall a :: a in w.acts ==> LeaseOk(w, w.acts[a]))
    && (forall wr :: wr in w.writes && Releasing(wr.change) ==>
          && wr.author in w.acts && !Active(w.acts[wr.author]) && wr.base.Some?
          && (wr.base.value.owner.Some? ==> wr.base.value.owner == w.acts[wr.author].me))
    && (forall wr :: wr in w.writes && wr.change.Claim? ==> forall a :: a in w.acts ==> w.acts[a].me != Some(wr.change.owner))
  }

  ghost predicate Inv(w: World) {
    && Fenced(w) && CopiesOk(w) && IdsBelow(w) && PendingOk(w) && TaskOk(w) && SavedOk(w) && StreamOk(w)
    && Accounted(w) && CallsOk(w) && BudgetOk(w) && Exclusive(w)
  }
}
