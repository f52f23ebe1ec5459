/** What every write of the record means, in every run: which fields change, to what, and what its author
    knew. */
module WorkChanges {
  import opened Wrappers
  import opened Events
  import opened Work
  import opened WorkInvariant
  import opened WorkTheorems
  import opened WorkDecisions

  // ---------------------------------------------------------------- the kinds of writes

  function Given(stored: string, mine: string): string {
    if stored != "" then stored else mine
  }

  /** The identity as stored; a field without a value is filled in from this replica's own reading. */
  predicate Filled(o: Origin, o': Origin, ev: Event) {
    var s, s', f := o.input.target, o'.input.target, ev.target;
    && o'.tool == o.tool && o'.eventId == o.eventId && o'.input.kind == o.input.kind && o'.input.value == o.input.value
    && o'.runId == Given(o.runId, ev.runId) && o'.scope == Given(o.scope, if "scope" in ev.meta then ev.meta["scope"] else "")
    && s'.host == Given(s.host, f.host) && s'.name == Given(s.name, f.name) && s'.nameRole == Given(s.nameRole, f.nameRole)
    && s'.port == (if s.port != 0 then s.port else f.port) && s'.proto == Given(s.proto, f.proto)
    && s'.url == Given(s.url, f.url) && s'.sni == Given(s.sni, f.sni) && s'.httpHost == Given(s.httpHost, f.httpHost)
  }

  /** A lease of the replica's full duration, counted from the clock reading the claim was decided on. */
  ghost predicate Granted(ls: seq<Label>, w: World, a: Aid, t': Task) {
    && a in w.acts && Looked(ls, a, t'.updated)
    && t'.owner.Some? && t'.leaseUntil == t'.updated + w.acts[a].cfg.leaseDuration
  }

  /** The first claim. */
  ghost predicate Opened(ls: seq<Label>, w: World, t': Task) {
    exists a :: Granted(ls, w, a, t') && Created(t', w.acts[a].cfg, w.acts[a].ev, t'.updated)
  }

  /** A claim of a task that is not over, not leased and not waiting. */
  ghost predicate Claimed(ls: seq<Label>, w: World, t: Task, t': Task) {
    && t.status != Completed && t.status != Failed && t.leaseUntil <= w.now && t.nextAttempt <= w.now
    && t' == t.(owner := t'.owner, leaseUntil := t'.leaseUntil, updated := t'.updated, origin := t'.origin)
    && exists a :: Granted(ls, w, a, t') && Filled(t.origin, t'.origin, w.acts[a].ev)
  }

  /** A heartbeat: the full duration again; a record without an owner only has its timestamp renewed. */
  ghost predicate Beaten(w: World, t: Task, t': Task) {
    || (t.owner.None? && t' == t.(updated := t'.updated))
    || (t.owner.Some? && t' == t.(updated := t'.updated, leaseUntil := t'.leaseUntil) && t.leaseUntil <= t'.leaseUntil
        && exists a :: a in w.acts && t'.leaseUntil == t'.updated + w.acts[a].cfg.leaseDuration)
  }

  /** An attempt is spent within the budget, under a result key nothing was ever saved under. */
  ghost predicate Attempted(ls: seq<Label>, w: World, t: Task, t': Task) {
    && (t.status == Running || t.status == RetryWait) && t.attempts < t.maxAttempts && (exists a :: StartChecked(ls, a, t.deadline))
    && t'.resultKey.Some? && t'.resultKey.value !in w.outbox && t'.resultKey.value !in w.puts && t'.resultKey != t.resultKey
    && t' == t.(status := Running, attempts := t.attempts + 1, scanId := t'.resultKey, resultKey := t'.resultKey,
                publishAttempts := 0, nextOutput := 0, nextAttempt := 0, updated := t'.updated)
  }

  /** The batch is saved, and its publication begins or is resumed. */
  ghost predicate Marked(w: World, t: Task, t': Task) {
    && (t.status == Running || t.status == Publishing) && (exists batch :: SavedAs(w, t, batch))
    && t' == t.(status := Publishing, updated := t'.updated)
  }

  /** A publication pass is spent because outputs are left. */
  ghost predicate PassSpent(w: World, t: Task, t': Task) {
    && t.status == Publishing && t.publishAttempts < t.maxPublishAttempts
    && (exists batch :: SavedAs(w, t, batch) && t.nextOutput < |batch.events|)
    && t' == t.(publishAttempts := t.publishAttempts + 1, updated := t'.updated)
  }

  /** The next output of the saved batch is on the stream, and is counted. */
  ghost predicate Counted(w: World, t: Task, t': Task) {
    && t.status == Publishing && (exists batch :: SavedAs(w, t, batch) && t.nextOutput < |batch.events|)
    && Copy(t.resultKey.value, t.nextOutput) in w.pub
    && t' == t.(nextOutput := t.nextOutput + 1, emitted := t.emitted + 1, updated := t'.updated)
  }

  /** Publication is put off: the lease is given up, and the index stays. */
  ghost predicate Deferred(t: Task, t': Task) {
    && t.status == Publishing
    && t' == t.(owner := None, leaseUntil := 0, updated := t'.updated, error := t'.error, nextAttempt := t'.nextAttempt)
    && ((t'.error == t.error && t'.nextAttempt == t.nextAttempt) || (t'.error.NotPublished? && t'.nextAttempt >= t'.updated))
  }

  /** Another execution: the saved batch, which is forgotten, is published and reports an error that may be
      retried; attempts are left; and the deadline had not come when the clock was read for it. */
  ghost predicate Rescheduled(ls: seq<Label>, w: World, t: Task, t': Task) {
    && t.status == Publishing && t.attempts < t.maxAttempts && (exists a :: RetryChecked(ls, a, t.deadline))
    && (exists batch :: SavedAs(w, t, batch) && batch.error.Some? && batch.retry && t.nextOutput == |batch.events|
                        && t'.error == Reason.Handler(batch.error.value))
    && t' == t.(status := RetryWait, resultKey := None, owner := None, leaseUntil := 0,
                error := t'.error, nextAttempt := t'.nextAttempt, updated := t'.updated)
    && t'.nextAttempt >= t'.updated
  }

  /** The saved batch is published and reports no error. */
  ghost predicate Succeeded(w: World, t: Task, t': Task) {
    && t.status == Publishing
    && (exists batch :: SavedAs(w, t, batch) && batch.error.None? && t.nextOutput == |batch.events|)
    && t' == t.(status := Completed, error := NoError, owner := None, leaseUntil := 0, nextAttempt := 0, updated := t'.updated)
  }

  /** Failure for one of three reasons; the saved batch and the index stay. */
  ghost predicate GaveUp(w: World, t: Task, t': Task) {
    && t.status != Completed && t.status != Failed && FailFits(w, t, t'.error)
    && t' == t.(status := Failed, error := t'.error, owner := None, leaseUntil := 0, nextAttempt := 0, updated := t'.updated)
  }

  ghost predicate Meaning(ls: seq<Label>, w: World, t: Task, t': Task) {
    || Claimed(ls, w, t, t') || Beaten(w, t, t') || Attempted(ls, w, t, t') || Marked(w, t, t') || PassSpent(w, t, t')
    || Counted(w, t, t') || Deferred(t, t') || Rescheduled(ls, w, t, t') || Succeeded(w, t, t') || GaveUp(w, t, t')
  }

  // ---------------------------------------------------------------- every write is one of them

  lemma LeaseMeaning(ls: seq<Label>, w: World, a: Aid, c: Change, at: nat, t: Task)
    requires Reasoned(ls, w, a, c, Some(t), at) && JustifiedOver(w, t, c) && (c.Claim? || c.Beat?)
    ensures c.Claim? ==> Claimed(ls, w, t, Changed(Some(t), c, at))
    ensures c.Beat? ==> Beaten(w, t, Changed(Some(t), c, at))
  {
    var t' := Changed(Some(t), c, at);
    if c.Claim? {
      assert Granted(ls, w, a, t');
      assert Filled(t.origin, t'.origin, w.acts[a].ev);
    }
  }

  lemma AttemptMeaning(ls: seq<Label>, w: World, a: Aid, c: Change, at: nat, t: Task)
    requires Reasoned(ls, w, a, c, Some(t), at) && JustifiedOver(w, t, c) && c.Start? && w.kv.Some? && w.kv.value.task == t
    ensures Attempted(ls, w, t, Changed(Some(t), c, at))
  {
  }

  lemma SavedHere(w: World, t: Task)
    requires t.resultKey.Some? && t.resultKey.value in w.outbox
    ensures SavedAs(w, t, w.outbox[t.resultKey.value])
  {
  }

  lemma BatchMeaning(ls: seq<Label>, w: World, a: Aid, c: Change, at: nat, t: Task)
    requires Reasoned(ls, w, a, c, Some(t), at) && JustifiedOver(w, t, c)
    ensures c.Mark? ==> Marked(w, t, Changed(Some(t), c, at))
    ensures c.Pass? ==> PassSpent(w, t, Changed(Some(t), c, at))
    ensures c.Advance? ==> Counted(w, t, Changed(Some(t), c, at))
    ensures c.Release? || c.Defer? ==> Deferred(t, Changed(Some(t), c, at))
  {
    if c.Mark? || c.Pass? || c.Advance? { SavedHere(w, t); }
  }

  lemma EndMeaning(ls: seq<Label>, w: World, a: Aid, c: Change, at: nat, t: Task)
    requires Reasoned(ls, w, a, c, Some(t), at) && JustifiedOver(w, t, c)
    ensures c.Retry? ==> Rescheduled(ls, w, t, Changed(Some(t), c, at))
    ensures c.Finish? ==> Succeeded(w, t, Changed(Some(t), c, at)) || GaveUp(w, t, Changed(Some(t), c, at))
  {
    if c.Finish? && c.status == Completed { SavedHere(w, t); }
  }

  /** Every write of the record, in every run of any number of replicas, delayed requests included, is of
      one of these kinds. */
  lemma StepMeaning(ls: seq<Label>, w: World, l: Label)
    requires Runs(INITIAL, ls) && w == Final(INITIAL, ls) && Enabled(w, l) && Apply(w, l).kv != w.kv
    ensures Apply(w, l).kv.Some? && Apply(w, l).kv.value.task.updated <= w.now
    ensures var t' := Apply(w, l).kv.value.task; if w.kv.Some? then Meaning(ls, w, w.kv.value.task, t') else Opened(ls, w, t')
  {
    var a, c, at := WriteReasoned(ls, w, l);
    if w.kv.None? {
      OpeningMeaning(ls, w, a, c, at);
    } else {
      ChangeMeaning(ls, w, a, c, at, w.kv.value.task);
    }
  }

  lemma OpeningMeaning(ls: seq<Label>, w: World, a: Aid, c: Change, at: nat)
    requires Reasoned(ls, w, a, c, None, at) && c.Claim?
    ensures Opened(ls, w, Changed(None, c, at))
  {
    assert Granted(ls, w, a, Changed(None, c, at));
  }

  lemma ChangeMeaning(ls: seq<Label>, w: World, a: Aid, c: Change, at: nat, t: Task)
    requires Reasoned(ls, w, a, c, Some(t), at) && JustifiedOver(w, t, c) && w.kv.Some? && w.kv.value.task == t
    ensures Meaning(ls, w, t, Changed(Some(t), c, at))
  {
    if c.Claim? || c.Beat? {
      LeaseMeaning(ls, w, a, c, at, t);
    } else if c.Start? {
      AttemptMeaning(ls, w, a, c, at, t);
    } else if c.Retry? || c.Finish? {
      EndMeaning(ls, w, a, c, at, t);
    } else {
      BatchMeaning(ls, w, a, c, at, t);
    }
  }

  /** The timestamp is the clock reading the write was made with: that of the read for a claim, else that of
      the request itself, also when the request takes effect late. */
  predicate Timely(w: World, l: Label, at: nat) {
    || (l.LandWrite? && at == l.w.at)
    || (l.Cas? && l.a in w.acts && at == if w.acts[l.a].pc.Seen? then w.acts[l.a].pc.at else w.now)
  }

  lemma WriteTime(w: World, l: Label)
    requires Inv(w) && Enabled(w, l) && Apply(w, l).kv != w.kv
    ensures Apply(w, l).kv.Some? && Timely(w, l, Apply(w, l).kv.value.task.updated)
  {
    var a, c, at := Writer(w, l);
    ChangedTime(TaskOf(w), c, at);
    if l.Cas? {
      assert CopyOk(w.acts[l.a]);
      SeenOffers(w.acts[l.a], c, w.now, w.nuid);
    }
  }

  lemma ChangedTime(base: Option<Task>, c: Change, at: nat)
    requires base.Some? || c.Claim?
    ensures Changed(base, c, at).updated == at
  {
  }

  /** Before it has a lease an activation can only claim. */
  lemma SeenOffers(act: Act, c: Change, now: nat, nuid: Id)
    requires Offers(act, c, now, nuid) && CopyOk(act)
    ensures c.Claim? <==> act.pc.Seen?
  {
  }

  // ---------------------------------------------------------------- what follows

  /** A task waits for another execution only because its published batch reports an error that may be
      retried, with attempts left and the deadline ahead. */
  lemma RetryWaitMeans(ls: seq<Label>, w: World, l: Label)
    requires Runs(INITIAL, ls) && w == Final(INITIAL, ls) && Enabled(w, l) && w.kv.Some? && Apply(w, l).kv.Some?
    requires w.kv.value.task.status != RetryWait && Apply(w, l).kv.value.task.status == RetryWait
    ensures Rescheduled(ls, w, w.kv.value.task, Apply(w, l).kv.value.task)
  {
    StepMeaning(ls, w, l);
  }

  /** A task fails only for a reason, which it records. */
  lemma FailedMeans(ls: seq<Label>, w: World, l: Label)
    requires Runs(INITIAL, ls) && w == Final(INITIAL, ls) && Enabled(w, l) && w.kv.Some? && Apply(w, l).kv.Some?
    requires w.kv.value.task.status != Failed && Apply(w, l).kv.value.task.status == Failed
    ensures GaveUp(w, w.kv.value.task, Apply(w, l).kv.value.task)
  {
    StepMeaning(ls, w, l);
  }

  /** A record is created with the limits of the replica whose claim took effect, and the identity of its
      event. */
  lemma CreatedMeans(ls: seq<Label>, w: World, l: Label)
    requires Runs(INITIAL, ls) && w == Final(INITIAL, ls) && Enabled(w, l) && w.kv.None? && Apply(w, l).kv.Some?
    ensures Opened(ls, w, Apply(w, l).kv.value.task)
  {
    StepMeaning(ls, w, l);
  }

  /** An attempt is spent only before the deadline and within the budget. */
  lemma AttemptMeans(ls: seq<Label>, w: World, l: Label)
    requires Runs(INITIAL, ls) && w == Final(INITIAL, ls) && Enabled(w, l) && w.kv.Some? && Apply(w, l).kv.Some?
    requires w.kv.value.task.attempts != Apply(w, l).kv.value.task.attempts
    ensures Attempted(ls, w, w.kv.value.task, Apply(w, l).kv.value.task)
  {
    StepMeaning(ls, w, l);
  }

  // ---------------------------------------------------------------- the budgets a task was given

  /** The limits of the record are those of one delivery that was made, and its deadline is that replica's
      window after its creation. */
  ghost predicate Founded(w: World) {
    w.kv.Some? ==> exists a :: a in w.acts && LimitsOf(w.kv.value.task, w.acts[a].cfg)
  }

  predicate LimitsOf(t: Task, cfg: Config) {
    t.maxAttempts == cfg.maxAttempts && t.maxPublishAttempts == cfg.maxPublishAttempts && t.deadline == t.created + cfg.retryWindow
  }

  lemma FoundedFirst(ls: seq<Label>, w: World, w': World)
    requires w'.kv.Some? && Opened(ls, w, w'.kv.value.task) && Keeps(w, w')
    ensures Founded(w')
  {
    var t := w'.kv.value.task;
    var a :| Granted(ls, w, a, t) && Created(t, w.acts[a].cfg, w.acts[a].ev, t.updated);
    assert LimitsOf(t, w'.acts[a].cfg);
  }

  lemma FoundedLater(w: World, w': World)
    requires Founded(w) && w.kv.Some? && w'.kv.Some? && SameBudget(w.kv.value.task, w'.kv.value.task) && Keeps(w, w')
    ensures Founded(w')
  {
    var a :| a in w.acts && LimitsOf(w.kv.value.task, w.acts[a].cfg);
    assert LimitsOf(w'.kv.value.task, w'.acts[a].cfg);
  }

  lemma FoundedStep(ls: seq<Label>, w: World, l: Label)
    requires Runs(INITIAL, ls) && w == Final(INITIAL, ls) && Inv(w) && Enabled(w, l) && Founded(w)
    ensures Founded(Apply(w, l))
  {
    KeepsStep(w, l);
    if w.kv.Some? {
      StatusStep(w, l);
      FoundedLater(w, Apply(w, l));
    } else if Apply(w, l).kv.Some? {
      CreatedMeans(ls, w, l);
      FoundedFirst(ls, w, Apply(w, l));
    }
  }

  lemma FoundedNext(ls: seq<Label>, l: Label, next: seq<Label>)
    requires Runs(INITIAL, ls) && Enabled(Final(INITIAL, ls), l) && next == ls + [l] && Runs(INITIAL, next)
    requires Final(INITIAL, next) == Apply(Final(INITIAL, ls), l) && Founded(Final(INITIAL, ls))
    ensures Founded(Final(INITIAL, next))
  {
    EveryRun(ls);
    FoundedStep(ls, Final(INITIAL, ls), l);
  }

  lemma {:induction false} FoundedPrefix(ls: seq<Label>, i: nat)
    requires i <= |ls| && Runs(INITIAL, ls)
    ensures Runs(INITIAL, ls[..i]) && Runs(Final(INITIAL, ls[..i]), ls[i..]) && Founded(Final(INITIAL, ls[..i]))
  {
    if i == 0 {
      assert ls[0..] == ls;
    } else {
      FoundedPrefix(ls, i - 1);
      PrefixRun(ls, i - 1);
      FoundedNext(ls[..i - 1], ls[i - 1], ls[..i]);
    }
  }

  /** In every run: the budgets in the record are those of a delivery that was made. */
  lemma BudgetsGiven(ls: seq<Label>)
    requires Runs(INITIAL, ls)
    ensures Founded(Final(INITIAL, ls))
  {
    FoundedPrefix(ls, |ls|);
    assert ls[..|ls|] == ls;
  }
}
