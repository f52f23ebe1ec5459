/** When a message may be acknowledged: no eligible event is lost, except through the gap between
    claim's two clock readings. */
module WorkAcks {
  import opened Wrappers
  import opened Events
  import opened Work
  import opened WorkInvariant
  import opened WorkFrames
  import opened WorkTheorems

  /** The lease or backoff claim declined for at its first clock reading is over at the second. */
  predicate Lapsed(entry: Record, at: nat, now: nat) {
    || (at < entry.task.leaseUntil && entry.task.leaseUntil <= now)
    || (entry.task.leaseUntil <= at && at < entry.task.nextAttempt && entry.task.nextAttempt <= now)
  }

  /** In this step claim does not decline a task whose lease or backoff lapses while it decides. */
  predicate Tight(w: World, l: Label) {
    l.Decline? && l.a in w.acts && w.acts[l.a].pc.Seen? && w.acts[l.a].pc.entry.Some? ==>
      var pc := w.acts[l.a].pc;
      Terminal(pc.entry.value.task) || !Lapsed(pc.entry.value, pc.at, w.now)
  }

  predicate TightRun(w: World, ls: seq<Label>)
    requires Runs(w, ls)
    decreases |ls|
  {
    ls == [] || (Tight(w, ls[0]) && TightRun(Apply(w, ls[0]), ls[1..]))
  }

  predicate Finished(w: World) {
    w.kv.Some? && Terminal(w.kv.value.task)
  }

  /** Acknowledged, or about to be, means durably terminal. */
  ghost predicate AcksOk(w: World) {
    && (w.acked != {} ==> Finished(w))
    && (forall a :: a in w.acts && w.acts[a].pc == Acking ==> Finished(w))
    && (forall a :: a in w.acts && w.acts[a].pc.Seen? && w.acts[a].pc.entry.Some? && Terminal(w.acts[a].pc.entry.value.task)
          ==> Finished(w))
  }

  lemma FinishedStays(w: World, l: Label)
    requires Inv(w) && Enabled(w, l) && Finished(w)
    ensures Finished(Apply(w, l))
  {
    StatusStep(w, l);
  }

  lemma DeclineAcks(w: World, a: Aid)
    requires Enabled(w, Decline(a))
    ensures var pc := w.acts[a].pc;
      NextAct(w, Decline(a)).pc == Acking <==> Terminal(pc.entry.value.task) || Lapsed(pc.entry.value, pc.at, w.now)
  {
  }

  lemma AcksMoved(w: World, w': World, a: Aid, act: Act)
    requires AcksOk(w) && w'.acts == w.acts[a := act] && (Finished(w) ==> Finished(w'))
    requires act.pc == Acking ==> Finished(w')
    requires act.pc.Seen? && act.pc.entry.Some? && Terminal(act.pc.entry.value.task) ==> Finished(w')
    requires w'.acked != {} ==> Finished(w')
    ensures AcksOk(w')
  {
  }

  lemma AcksCas(w: World, a: Aid, c: Change, out: Outcome)
    requires Inv(w) && AcksOk(w) && Enabled(w, Cas(a, c, out))
    ensures AcksOk(Apply(w, Cas(a, c, out)))
  {
    var l := Cas(a, c, out);
    if Finished(w) { FinishedStays(w, l); }
    AckingCas(w, a, c, out);
  }

  lemma AckingCas(w: World, a: Aid, c: Change, out: Outcome)
    requires AcksOk(w) && Enabled(w, Cas(a, c, out)) && (Finished(w) ==> Finished(Apply(w, Cas(a, c, out))))
    ensures AcksOk(Apply(w, Cas(a, c, out)))
  {
    var l := Cas(a, c, out);
    if out == Good {
      GoodFrame(w, a, c);
      FinishEnds(w, a, c);
      AcksMoved(w, Apply(w, l), a, Won(w.acts[a], c, w.now, w.seqNo + 1));
    } else {
      BadFrame(w, a, c, out.sent);
      AcksMoved(w, Apply(w, l), a, Lost(w.acts[a], c));
    }
  }

  lemma FinishEnds(w: World, a: Aid, c: Change)
    requires a in w.acts && Offers(w.acts[a], c, w.now, w.nuid)
    ensures var act := Won(w.acts[a], c, w.now, w.seqNo + 1);
      && (act.pc == Acking ==> w.acts[a].pc == Acking || Terminal(Changed(BaseOf(w.acts[a], c), c, ChangeTime(w.acts[a], c, w.now))))
      && (act.pc.Seen? ==> act.pc == w.acts[a].pc)
  {
  }

  lemma AcksQuiet(w: World, l: Label)
    requires Inv(w) && AcksOk(w) && Enabled(w, l) && Quiet(l) && Tight(w, l)
    ensures AcksOk(Apply(w, l))
  {
    QuietFrame(w, l);
    if Finished(w) { FinishedStays(w, l); }
    AckingQuiet(w, l);
    AcksMoved(w, Apply(w, l), Actor(l).value, NextAct(w, l));
  }

  lemma AckingQuiet(w: World, l: Label)
    requires AcksOk(w) && Enabled(w, l) && Quiet(l) && Tight(w, l) && Actor(l).Some?
    ensures var act := NextAct(w, l);
      && (act.pc == Acking ==> Finished(w))
      && (act.pc.Seen? && act.pc.entry.Some? && Terminal(act.pc.entry.value.task) ==> Finished(w))
      && (l.Ack? ==> Finished(w))
  {
    if l.Decline? { DeclineAcks(w, l.a); }
  }

  lemma AcksElse(w: World, l: Label)
    requires Inv(w) && AcksOk(w) && Enabled(w, l) && !Quiet(l) && !l.Cas?
    ensures AcksOk(Apply(w, l))
  {
    if Finished(w) { FinishedStays(w, l); }
    AckingElse(w, l);
  }

  lemma AckingElse(w: World, l: Label)
    requires AcksOk(w) && Enabled(w, l) && !Quiet(l) && !l.Cas? && (Finished(w) ==> Finished(Apply(w, l)))
    ensures AcksOk(Apply(w, l))
  {
  }

  lemma AcksStep(w: World, l: Label)
    requires Inv(w) && AcksOk(w) && Enabled(w, l) && Tight(w, l)
    ensures AcksOk(Apply(w, l))
  {
    if l.Cas? {
      AcksCas(w, l.a, l.change, l.out);
    } else if Quiet(l) {
      AcksQuiet(w, l);
    } else {
      AcksElse(w, l);
    }
  }

  lemma {:induction false} AcksRun(w: World, ls: seq<Label>)
    requires Inv(w) && AcksOk(w) && Runs(w, ls) && TightRun(w, ls)
    ensures AcksOk(Final(w, ls))
    decreases |ls|
  {
    if ls != [] {
      AcksStep(w, ls[0]);
      InvStep(w, ls[0]);
      AcksRun(Apply(w, ls[0]), ls[1..]);
    }
  }

  /** No lost work: in every run in which no lease or backoff lapses between claim's two clock
      readings, a message is acknowledged only when its task is durably terminal. An event whose
      task is not terminal is therefore still awaiting redelivery. */
  lemma NoLostWork(ls: seq<Label>)
    requires Runs(INITIAL, ls) && TightRun(INITIAL, ls)
    ensures forall msg :: msg in Final(INITIAL, ls).acked ==> Finished(Final(INITIAL, ls))
  {
    InitialInv();
    AcksRun(INITIAL, ls);
  }

  /** The gap is exactly the danger: declining unfinished work leads to an acknowledgement if and only
      if its lease or backoff lapses between the two readings. */
  lemma DeclineLosesIff(w: World, a: Aid)
    requires Inv(w) && AcksOk(w) && Enabled(w, Decline(a)) && !Finished(w)
    ensures !AcksOk(Apply(w, Decline(a))) <==> Lapsed(w.acts[a].pc.entry.value, w.acts[a].pc.at, w.now)
  {
    DeclineAcks(w, a);
    QuietFrame(w, Decline(a));
    var w' := Apply(w, Decline(a));
    assert w'.acts[a] == NextAct(w, Decline(a));
    assert !Terminal(w.acts[a].pc.entry.value.task);
    if Tight(w, Decline(a)) {
      AcksStep(w, Decline(a));
    }
  }

  // ---------------------------------------------------------------- a run that loses work

  /** One message, delivered twice because its first delivery is slow. The second replica reads the
      record just before the lease ends and computes the delay just after: it acknowledges, and then
      the first replica dies. */
  function LossRun(cfg: Config, ev: Event): seq<Label> {
    var expiry := 1 + cfg.leaseDuration;
    [Deliver(0, 1, cfg, ev), Get(0), Cas(0, Claim(FreshTask(cfg, ev, 1), 0, expiry), Good),
     Deliver(1, 1, cfg, ev), Get(1), Tick(expiry, 1, 1), Decline(1), Ack(1), Stop(1), Stop(0)]
  }

  predicate Reaches(ls: seq<Label>, w: World) {
    Runs(INITIAL, ls) && Final(INITIAL, ls) == w
  }

  lemma Extend(ls: seq<Label>, w: World, l: Label)
    requires Reaches(ls, w) && Enabled(w, l)
    ensures Reaches(ls + [l], Apply(w, l))
  {
    RunSnoc(INITIAL, ls, l);
  }

  /** The first replica has read an empty bucket. */
  lemma LossRead(cfg: Config, ev: Event) returns (w: World)
    requires ValidConfig(cfg)
    ensures Reaches(LossRun(cfg, ev)[..2], w)
    ensures w == INITIAL.(acts := map[0 := Act(1, cfg, ev, Seen(None, 1), None, None)])
  {
    var ls := LossRun(cfg, ev);
    assert ls[..1] == [] + [ls[0]] && ls[..2] == ls[..1] + [ls[1]];
    w := Apply(INITIAL, ls[0]);
    Extend([], INITIAL, ls[0]);
    Extend(ls[..1], w, ls[1]);
    w := Apply(w, ls[1]);
    assert w.acts == map[0 := Act(1, cfg, ev, Seen(None, 1), None, None)];
  }

  lemma LossClaim(cfg: Config, ev: Event) returns (w: World)
    requires ValidConfig(cfg)
    ensures Reaches(LossRun(cfg, ev)[..3], w)
    ensures w.now == 1 && w.nuid == 1 && w.seqNo == 1 && w.acked == {} && w.acts.Keys == {0}
    ensures w.kv.Some? && w.kv.value.task.status == Running && w.kv.value.task.leaseUntil == 1 + cfg.leaseDuration
  {
    var ls := LossRun(cfg, ev);
    w := LossRead(cfg, ev);
    assert ls[..3] == ls[..2] + [ls[2]];
    Extend(ls[..2], w, ls[2]);
    w := Apply(w, ls[2]);
  }

  /** The second replica reads the record just before the lease ends. */
  lemma LossSeen(cfg: Config, ev: Event) returns (w: World)
    requires ValidConfig(cfg)
    ensures Reaches(LossRun(cfg, ev)[..5], w)
    ensures w.now == 1 && w.nuid == 1 && w.seqNo == 1 && w.acked == {} && w.acts.Keys == {0, 1}
    ensures w.kv.Some? && w.kv.value.task.status == Running && w.kv.value.task.leaseUntil == 1 + cfg.leaseDuration
    ensures w.acts[1].pc == Seen(w.kv, 1) && w.acts[1].msg == 1
  {
    var ls := LossRun(cfg, ev);
    w := LossClaim(cfg, ev);
    assert ls[..4] == ls[..3] + [ls[3]] && ls[..5] == ls[..4] + [ls[4]];
    Extend(ls[..3], w, ls[3]);
    w := Apply(w, ls[3]);
    Extend(ls[..4], w, ls[4]);
    w := Apply(w, ls[4]);
  }

  lemma LossDecline(cfg: Config, ev: Event) returns (w: World)
    requires ValidConfig(cfg)
    ensures Reaches(LossRun(cfg, ev)[..7], w)
    ensures w.acked == {} && w.acts.Keys == {0, 1} && w.acts[1].pc == Acking && w.acts[1].msg == 1 && !Finished(w)
  {
    var ls := LossRun(cfg, ev);
    w := LossSeen(cfg, ev);
    assert ls[..6] == ls[..5] + [ls[5]] && ls[..7] == ls[..6] + [ls[6]];
    Extend(ls[..5], w, ls[5]);
    w := Apply(w, ls[5]);
    Extend(ls[..6], w, ls[6]);
    w := Apply(w, ls[6]);
  }

  /** Without the hypothesis, NoLostWork is false: at the end of this run the message is acknowledged,
      the task is not finished, and nobody is working on it. */
  lemma WorkCanBeLost(cfg: Config, ev: Event)
    requires ValidConfig(cfg)
    ensures Runs(INITIAL, LossRun(cfg, ev))
    ensures var w := Final(INITIAL, LossRun(cfg, ev));
      1 in w.acked && !Finished(w) && forall a :: a in w.acts ==> !Active(w.acts[a])
  {
    var ls := LossRun(cfg, ev);
    var w := LossDecline(cfg, ev);
    assert ls[..8] == ls[..7] + [ls[7]] && ls[..9] == ls[..8] + [ls[8]] && ls == ls[..9] + [ls[9]];
    Extend(ls[..7], w, ls[7]);
    w := Apply(w, ls[7]);
    Extend(ls[..8], w, ls[8]);
    w := Apply(w, ls[8]);
    Extend(ls[..9], w, ls[9]);
  }
}
