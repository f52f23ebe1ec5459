/** Every lease handle ever issued, those of returned and crashed deliveries included: exactly when a
    handle whose own copy has not expired still owns the record. */
module WorkHandles {
  import opened Wrappers
  import opened Work
  import opened WorkInvariant
  import opened WorkFrames
  import opened WorkFencing
  import opened WorkRecord
  import opened WorkLeases
  import opened WorkTheorems

  /** The handle's own copy of the task says that the lease has not expired. */
  predicate Unexpired(w: World, a: Aid) {
    a in w.acts && w.acts[a].lease.Some? && w.acts[a].lease.value.task.leaseUntil > w.now
  }

  /** The record says so, too: it is leased to this handle, at least as long. */
  predicate Owner(w: World, a: Aid) {
    && a in w.acts && w.acts[a].lease.Some? && w.kv.Some?
    && w.kv.value.task.owner == w.acts[a].me && w.acts[a].lease.value.task.leaseUntil <= w.kv.value.task.leaseUntil
  }

  /** A write that gives up the lease of activation `a`, and that `a` was told had failed, takes effect. */
  predicate LateRelease(l: Label, a: Aid) {
    l.LandWrite? && Releasing(l.w.change) && l.w.author == a
  }

  predicate ReleasedLate(ls: seq<Label>, a: Aid) {
    exists l :: l in ls && LateRelease(l, a)
  }

  // ---------------------------------------------------------------- without a late release

  predicate Trusted(w: World, act: Act) {
    act.lease.Some? && act.lease.value.task.leaseUntil > w.now ==>
      w.kv.Some? && w.kv.value.task.owner == act.me && act.lease.value.task.leaseUntil <= w.kv.value.task.leaseUntil
  }

  /** A justified write that does not release this handle's own lease leaves its copy as good as it was. */
  lemma ChangedTrusted(w: World, w': World, c: Change, at: nat, act: Act)
    requires Trusted(w, act) && Justified(w, c) && TaskOk(w) && CopyOk(act) && (act.lease.Some? ==> w.kv.Some?)
    requires Releasing(c) && w.kv.Some? && w.kv.value.task.owner.Some? ==> w.kv.value.task.owner != act.me
    requires w'.kv.Some? && w'.kv.value.task == Changed(TaskOf(w), c, at) && w'.now == w.now
    ensures Trusted(w', act)
  {
  }

  lemma OwnTrusted(w': World, act: Act)
    requires CopyOk(act) && act.lease.Some? && w'.kv.Some? && w'.kv.value.task == act.lease.value.task
    ensures Trusted(w', act)
  {
  }

  lemma TrustedGood(w: World, b: Aid, c: Change, a: Aid)
    requires Grounds(w) && Enabled(w, Cas(b, c, Good)) && a in w.acts && Trusted(w, w.acts[a])
    ensures var w' := Apply(w, Cas(b, c, Good)); a in w'.acts && Trusted(w', w'.acts[a])
  {
    OfferJustified(w, b, c);
    GoodFrame(w, b, c);
    TrustedWrote(w, Apply(w, Cas(b, c, Good)), b, c, a);
  }

  lemma TrustedWrote(w: World, w': World, b: Aid, c: Change, a: Aid)
    requires Fenced(w) && CopiesOk(w) && TaskOk(w) && Exclusive(w) && a in w.acts && b in w.acts && Trusted(w, w.acts[a])
    requires Justified(w, c) && Offers(w.acts[b], c, w.now, w.nuid) && BaseOf(w.acts[b], c) == TaskOf(w)
    requires Wrote(w, w', b, Won(w.acts[b], c, w.now, w.seqNo + 1), Changed(BaseOf(w.acts[b], c), c, ChangeTime(w.acts[b], c, w.now)))
    ensures a in w'.acts && Trusted(w', w'.acts[a])
  {
    if a == b {
      assert CopyOk(w.acts[b]);
      WonCopyOk(w.acts[b], c, w.now, w.nuid, w.seqNo + 1);
      OwnTrusted(w', w'.acts[b]);
    } else {
      TrustedOther(w, w', b, c, a);
    }
  }

  lemma TrustedOther(w: World, w': World, b: Aid, c: Change, a: Aid)
    requires Fenced(w) && CopiesOk(w) && TaskOk(w) && Exclusive(w) && a in w.acts && b in w.acts && a != b && Trusted(w, w.acts[a])
    requires Justified(w, c) && Offers(w.acts[b], c, w.now, w.nuid) && BaseOf(w.acts[b], c) == TaskOf(w)
    requires w'.kv.Some? && w'.kv.value.task == Changed(TaskOf(w), c, ChangeTime(w.acts[b], c, w.now)) && w'.now == w.now
    ensures Trusted(w', w.acts[a])
  {
    assert CopyOk(w.acts[a]);
    assert w.acts[a].lease.Some? ==> HandleOk(w, w.acts[a].lease.value);
    ReleaserOwns(w, b, c, a);
    ChangedTrusted(w, w', c, ChangeTime(w.acts[b], c, w.now), w.acts[a]);
  }

  /** Whoever releases the record was its owner. */
  lemma ReleaserOwns(w: World, b: Aid, c: Change, a: Aid)
    requires CopiesOk(w) && Exclusive(w) && a in w.acts && b in w.acts && a != b && Offers(w.acts[b], c, w.now, w.nuid)
    requires BaseOf(w.acts[b], c) == TaskOf(w)
    ensures Releasing(c) && w.kv.Some? && w.kv.value.task.owner.Some? ==> w.kv.value.task.owner != w.acts[a].me
  {
    assert CopyOk(w.acts[b]);
  }

  lemma TrustedLand(w: World, wr: Write, a: Aid)
    requires Grounds(w) && PendingOk(w) && Enabled(w, LandWrite(wr)) && a in w.acts && Trusted(w, w.acts[a])
    requires !LateRelease(LandWrite(wr), a)
    ensures var w' := Apply(w, LandWrite(wr)); Trusted(w', w.acts[a]) && w'.acts == w.acts
  {
    LandFrame(w, wr);
    TrustedLanded(w, Apply(w, LandWrite(wr)), wr, a);
  }

  lemma TrustedLanded(w: World, w': World, wr: Write, a: Aid)
    requires Fenced(w) && CopiesOk(w) && TaskOk(w) && Exclusive(w) && PendingOk(w) && a in w.acts && Trusted(w, w.acts[a])
    requires wr in w.writes && wr.rev == CurrentRev(w) && (Releasing(wr.change) ==> wr.author != a)
    requires w'.kv.Some? && w'.kv.value.task == Changed(wr.base, wr.change, wr.at) && w'.now == w.now && (wr.base.Some? || wr.change.Claim?)
    ensures Trusted(w', w.acts[a])
  {
    assert WriteOk(w, wr) && CopyOk(w.acts[a]);
    assert w.acts[a].lease.Some? ==> HandleOk(w, w.acts[a].lease.value);
    ChangedTrusted(w, w', wr.change, wr.at, w.acts[a]);
  }

  lemma TrustedMoved(w: World, w': World, b: Aid, act: Act, a: Aid)
    requires w'.kv == w.kv && w'.now == w.now && w'.acts == w.acts[b := act] && SameHandle(w, b, act)
    requires (a in w.acts ==> Trusted(w, w.acts[a])) && a in w'.acts
    ensures Trusted(w', w'.acts[a])
  {
  }

  lemma TrustedLater(w: World, w': World, a: Aid)
    requires w'.kv == w.kv && w.now <= w'.now && w'.acts == w.acts && a in w.acts && Trusted(w, w.acts[a])
    ensures Trusted(w', w'.acts[a])
  {
  }

  /** Steps that leave the record and every handle alone. */
  lemma TrustedElse(w: World, l: Label, a: Aid)
    requires Enabled(w, l) && !l.LandWrite? && !(l.Cas? && l.out == Good) && (a in w.acts ==> Trusted(w, w.acts[a]))
    requires a in Apply(w, l).acts
    ensures Trusted(Apply(w, l), Apply(w, l).acts[a])
  {
    if l.Cas? {
      BadFrame(w, l.a, l.change, l.out.sent);
      TrustedMoved(w, Apply(w, l), l.a, Lost(w.acts[l.a], l.change), a);
    } else if Actor(l).Some? {
      SameActor(w, l);
      TrustedMoved(w, Apply(w, l), Actor(l).value, NextAct(w, l), a);
    } else {
      TrustedLater(w, Apply(w, l), a);
    }
  }

  /** Steps of one activation that write no record. */
  lemma SameActor(w: World, l: Label)
    requires Enabled(w, l) && Actor(l).Some? && !l.Cas?
    ensures var w' := Apply(w, l);
      w'.kv == w.kv && w'.now == w.now && w'.acts == w.acts[Actor(l).value := NextAct(w, l)] && SameHandle(w, Actor(l).value, NextAct(w, l))
    ensures Actor(l).value in w.acts && !Active(w.acts[Actor(l).value]) ==> !Active(NextAct(w, l))
  {
    if Quiet(l) {
      QuietFrame(w, l);
      QuietHandle(w, l);
      QuietRests(w, l);
    } else {
      StoreHandle(w, l);
    }
  }

  lemma QuietRests(w: World, l: Label)
    requires Enabled(w, l) && Quiet(l) && Actor(l).Some?
    ensures Actor(l).value in w.acts && !Active(w.acts[Actor(l).value]) ==> !Active(NextAct(w, l))
  {
  }

  lemma TrustedStep(w: World, l: Label, a: Aid)
    requires Inv(w) && Enabled(w, l) && (a in w.acts ==> Trusted(w, w.acts[a])) && !LateRelease(l, a)
    ensures a in Apply(w, l).acts ==> Trusted(Apply(w, l), Apply(w, l).acts[a])
  {
    if a in Apply(w, l).acts {
      if l.Cas? && l.out == Good {
        GoodFrame(w, l.a, l.change);
        TrustedGood(w, l.a, l.change, a);
      } else if l.LandWrite? {
        LandFrame(w, l.w);
        TrustedLand(w, l.w, a);
      } else {
        TrustedElse(w, l, a);
      }
    }
  }

  lemma {:induction false} TrustedRun(w: World, ls: seq<Label>, a: Aid)
    requires Inv(w) && Runs(w, ls) && (a in w.acts ==> Trusted(w, w.acts[a])) && !ReleasedLate(ls, a)
    ensures a in Final(w, ls).acts ==> Trusted(Final(w, ls), Final(w, ls).acts[a])
    decreases |ls|
  {
    if ls != [] {
      assert ls[0] in ls && forall l :: l in ls[1..] ==> l in ls;
      TrustedStep(w, ls[0], a);
      InvStep(w, ls[0]);
      TrustedRun(Apply(w, ls[0]), ls[1..], a);
    }
  }

  // ---------------------------------------------------------------- with a late release

  /** The activation is over, and the record is not leased to it. */
  predicate Disowned(w: World, a: Aid) {
    && a in w.acts && !Active(w.acts[a]) && w.kv.Some?
    && (w.acts[a].me.None? || w.kv.value.task.owner != w.acts[a].me)
  }

  lemma LateReleaseDisowns(w: World, l: Label, a: Aid)
    requires Exclusive(w) && Enabled(w, l) && LateRelease(l, a)
    ensures Disowned(Apply(w, l), a)
  {
    LandFrame(w, l.w);
    assert Changed(l.w.base, l.w.change, l.w.at).owner.None?;
  }

  lemma ChangedDisowned(t: Task, c: Change, at: nat, me: Option<Id>)
    requires me.None? || t.owner != me
    requires c.Claim? ==> Some(c.owner) != me
    ensures me.None? || Changed(Some(t), c, at).owner != me
  {
  }

  lemma DisownedStep(w: World, l: Label, a: Aid)
    requires Grounds(w) && PendingOk(w) && Enabled(w, l) && Disowned(w, a)
    ensures Disowned(Apply(w, l), a)
  {
    if l.Cas? && l.out == Good {
      DisownedGood(w, l.a, l.change, a);
    } else if l.LandWrite? {
      DisownedLand(w, l.w, a);
    } else {
      DisownedElse(w, l, a);
    }
  }

  lemma DisownedLand(w: World, wr: Write, a: Aid)
    requires Fenced(w) && Exclusive(w) && Enabled(w, LandWrite(wr)) && Disowned(w, a)
    ensures Disowned(Apply(w, LandWrite(wr)), a)
  {
    LandFrame(w, wr);
    assert WriteOk(w, wr);
    ChangedDisowned(w.kv.value.task, wr.change, wr.at, w.acts[a].me);
  }

  lemma DisownedGood(w: World, b: Aid, c: Change, a: Aid)
    requires Grounds(w) && Enabled(w, Cas(b, c, Good)) && Disowned(w, a)
    ensures Disowned(Apply(w, Cas(b, c, Good)), a)
  {
    GoodFrame(w, b, c);
    OfferJustified(w, b, c);
    DisownedWrote(w, Apply(w, Cas(b, c, Good)), b, c, a);
  }

  lemma DisownedWrote(w: World, w': World, b: Aid, c: Change, a: Aid)
    requires IdsBelow(w) && Disowned(w, a) && b in w.acts && Offers(w.acts[b], c, w.now, w.nuid) && BaseOf(w.acts[b], c) == TaskOf(w)
    requires Wrote(w, w', b, Won(w.acts[b], c, w.now, w.seqNo + 1), Changed(TaskOf(w), c, ChangeTime(w.acts[b], c, w.now)))
    ensures Disowned(w', a)
  {
    WonOwner(w, b, c);
    if c.Claim? { FreshOwner(w, w.acts[b], c, a); }
    ChangedDisowned(w.kv.value.task, c, ChangeTime(w.acts[b], c, w.now), w.acts[a].me);
  }

  lemma FreshOwner(w: World, act: Act, c: Change, a: Aid)
    requires IdsBelow(w) && a in w.acts && Offers(act, c, w.now, w.nuid) && c.Claim?
    ensures Some(c.owner) != w.acts[a].me
  {
    assert ActBelow(w.acts[a], w.nuid);
  }

  lemma DisownedMoved(w: World, w': World, b: Aid, act: Act, a: Aid)
    requires Disowned(w, a) && w'.kv == w.kv && w'.acts == w.acts[b := act] && SameHandle(w, b, act)
    requires b in w.acts && !Active(w.acts[b]) ==> !Active(act)
    ensures Disowned(w', a)
  {
  }

  lemma DisownedElse(w: World, l: Label, a: Aid)
    requires Enabled(w, l) && !l.LandWrite? && !(l.Cas? && l.out == Good) && Disowned(w, a)
    ensures Disowned(Apply(w, l), a)
  {
    if l.Cas? {
      BadFrame(w, l.a, l.change, l.out.sent);
      DisownedMoved(w, Apply(w, l), l.a, Lost(w.acts[l.a], l.change), a);
    } else if Actor(l).Some? {
      SameActor(w, l);
      DisownedMoved(w, Apply(w, l), Actor(l).value, NextAct(w, l), a);
    }
  }

  lemma {:induction false} DisownedRun(w: World, ls: seq<Label>, a: Aid)
    requires Inv(w) && Runs(w, ls) && (Disowned(w, a) || ReleasedLate(ls, a))
    ensures Disowned(Final(w, ls), a)
    decreases |ls|
  {
    if ls != [] {
      if LateRelease(ls[0], a) {
        LateReleaseDisowns(w, ls[0], a);
      } else if Disowned(w, a) {
        DisownedStep(w, ls[0], a);
      } else {
        var l :| l in ls && LateRelease(l, a);
        assert l in ls[1..];
      }
      InvStep(w, ls[0]);
      DisownedRun(Apply(w, ls[0]), ls[1..], a);
    }
  }

  // ---------------------------------------------------------------- the theorems

  lemma OwnerAt(w: World, a: Aid)
    requires CopiesOk(w) && Unexpired(w, a)
    ensures Trusted(w, w.acts[a]) ==> Owner(w, a)
    ensures Disowned(w, a) ==> !Owner(w, a)
  {
    assert CopyOk(w.acts[a]);
  }

  /** A handle whose copy has not expired owns the record, unless its own releasing write was reported to
      have failed and took effect afterwards; then it never owns it again. */
  lemma HandleOwnsIff(ls: seq<Label>, a: Aid)
    requires Runs(INITIAL, ls) && Unexpired(Final(INITIAL, ls), a)
    ensures Owner(Final(INITIAL, ls), a) <==> !ReleasedLate(ls, a)
  {
    InitialInv();
    EveryRun(ls);
    OwnerAt(Final(INITIAL, ls), a);
    if ReleasedLate(ls, a) {
      DisownedRun(INITIAL, ls, a);
    } else {
      TrustedRun(INITIAL, ls, a);
    }
  }

  /** While process has not returned there has been no such write. */
  lemma ActiveNotReleased(ls: seq<Label>, a: Aid)
    requires Runs(INITIAL, ls) && a in Final(INITIAL, ls).acts && Active(Final(INITIAL, ls).acts[a])
    ensures !ReleasedLate(ls, a)
  {
    InitialInv();
    if ReleasedLate(ls, a) { DisownedRun(INITIAL, ls, a); }
  }

  /** Of all handles ever issued for a task, returned and crashed deliveries included, at most one whose
      release has not landed late has an unexpired lease. */
  lemma LeaseExclusive(ls: seq<Label>, a: Aid, b: Aid)
    requires Runs(INITIAL, ls) && Unexpired(Final(INITIAL, ls), a) && Unexpired(Final(INITIAL, ls), b)
    requires !ReleasedLate(ls, a) && !ReleasedLate(ls, b)
    ensures a == b
  {
    EveryRun(ls);
    HandleOwnsIff(ls, a);
    HandleOwnsIff(ls, b);
    var w := Final(INITIAL, ls);
    assert CopyOk(w.acts[a]) && CopyOk(w.acts[b]);
  }

  predicate SomeLateRelease(ls: seq<Label>) {
    exists l :: l in ls && l.LandWrite? && Releasing(l.w.change)
  }

  /** Two unexpired handles at once: only in a run in which a releasing write landed late. */
  lemma TwoNeedLateRelease(ls: seq<Label>, a: Aid, b: Aid)
    requires Runs(INITIAL, ls) && a != b && Unexpired(Final(INITIAL, ls), a) && Unexpired(Final(INITIAL, ls), b)
    ensures ReleasedLate(ls, a) || ReleasedLate(ls, b)
    ensures SomeLateRelease(ls)
  {
    if !ReleasedLate(ls, a) && !ReleasedLate(ls, b) { LeaseExclusive(ls, a, b); }
    var c := if ReleasedLate(ls, a) then a else b;
    var l :| l in ls && LateRelease(l, c);
  }
}
