/** At most one running activation holds an unexpired lease. */
module WorkLeases {
  import opened Wrappers
  import opened Work
  import opened WorkInvariant
  import opened WorkFrames
  import opened WorkFencing
  import opened WorkRecord

  /** A justified write by `author` leaves every other running activation's lease as valid as it was. */
  lemma ChangedLeaseOk(w: World, w': World, c: Change, at: nat, act: Act, author: Option<Id>)
    requires LeaseOk(w, act) && Justified(w, c) && TaskOk(w) && (act.lease.Some? ==> w.kv.Some?)
    requires act.me != author || !Active(act)
    requires Releasing(c) && w.kv.Some? && w.kv.value.task.owner.Some? ==> w.kv.value.task.owner == author
    requires w'.kv.Some? && w'.kv.value.task == Changed(TaskOf(w), c, at) && w'.now == w.now
    ensures LeaseOk(w', act)
  {
  }

  lemma WonLeaseOk(w: World, w': World, act: Act, c: Change)
    requires CopyOk(act) && Offers(act, c, w.now, w.nuid) && LeaseOk(w, act)
    requires c.Claim? ==> act.pc.at <= w.now
    requires CopyOk(Won(act, c, w.now, w.seqNo + 1))
    requires w'.kv.Some? && w'.kv.value.task == Won(act, c, w.now, w.seqNo + 1).lease.value.task && w'.now == w.now
    ensures LeaseOk(w', Won(act, c, w.now, w.seqNo + 1))
  {
  }

  ghost predicate Owners(w: World) {
    && (forall a, b :: a in w.acts && b in w.acts && a != b && w.acts[a].me.Some? ==> w.acts[a].me != w.acts[b].me)
    && (forall wr :: wr in w.writes && Releasing(wr.change) ==>
          && wr.author in w.acts && !Active(w.acts[wr.author]) && wr.base.Some?
          && (wr.base.value.owner.Some? ==> wr.base.value.owner == w.acts[wr.author].me))
    && (forall wr :: wr in w.writes && wr.change.Claim? ==> forall a :: a in w.acts ==> w.acts[a].me != Some(wr.change.owner))
  }

  lemma ExclusiveParts(w: World)
    ensures Exclusive(w) <==> Owners(w) && forall a :: a in w.acts ==> LeaseOk(w, w.acts[a])
  {
  }

  lemma ExclusiveGood(w: World, a: Aid, c: Change)
    requires Grounds(w) && Enabled(w, Cas(a, c, Good))
    ensures Exclusive(Apply(w, Cas(a, c, Good)))
  {
    OfferJustified(w, a, c);
    WonCopyOk(w.acts[a], c, w.now, w.nuid, w.seqNo + 1);
    ExclusiveWrites(w, a, c);
  }

  lemma ExclusiveWrites(w: World, a: Aid, c: Change)
    requires Fenced(w) && CopiesOk(w) && IdsBelow(w) && TaskOk(w) && Exclusive(w) && Enabled(w, Cas(a, c, Good))
    requires CopyOk(Won(w.acts[a], c, w.now, w.seqNo + 1)) && Justified(w, c) && BaseOf(w.acts[a], c) == TaskOf(w)
    ensures Exclusive(Apply(w, Cas(a, c, Good)))
  {
    var w' := Apply(w, Cas(a, c, Good));
    GoodFrame(w, a, c);
    WonOwner(w, a, c);
    OwnersWrote(w, w', a, w'.acts[a]);
    LeasesWrote(w, w', a, c);
    ExclusiveParts(w');
  }

  lemma LeasesWrote(w: World, w': World, a: Aid, c: Change)
    requires Fenced(w) && CopiesOk(w) && TaskOk(w) && Exclusive(w) && Justified(w, c) && a in w.acts
    requires Offers(w.acts[a], c, w.now, w.nuid) && BaseOf(w.acts[a], c) == TaskOf(w)
    requires CopyOk(Won(w.acts[a], c, w.now, w.seqNo + 1)) && w'.acts == w.acts[a := Won(w.acts[a], c, w.now, w.seqNo + 1)]
    requires w'.kv.Some? && w'.kv.value.task == Changed(TaskOf(w), c, ChangeTime(w.acts[a], c, w.now)) && w'.now == w.now
    ensures forall b :: b in w'.acts ==> LeaseOk(w', w'.acts[b])
  {
    forall b | b in w'.acts ensures LeaseOk(w', w'.acts[b]) {
      if b == a { OwnLeaseOk(w, w', a, c); } else { OtherLeaseOk(w, w', a, b, c); }
    }
  }

  lemma OwnLeaseOk(w: World, w': World, a: Aid, c: Change)
    requires Fenced(w) && CopiesOk(w) && Exclusive(w) && a in w.acts && Offers(w.acts[a], c, w.now, w.nuid)
    requires CopyOk(Won(w.acts[a], c, w.now, w.seqNo + 1))
    requires w'.kv.Some? && w'.kv.value.task == Won(w.acts[a], c, w.now, w.seqNo + 1).lease.value.task && w'.now == w.now
    ensures LeaseOk(w', Won(w.acts[a], c, w.now, w.seqNo + 1))
  {
    assert CopyOk(w.acts[a]) && LeaseOk(w, w.acts[a]);
    assert c.Claim? ==> SeenOk(w, w.acts[a].pc.entry, w.acts[a].pc.at);
    WonLeaseOk(w, w', w.acts[a], c);
  }

  lemma OtherLeaseOk(w: World, w': World, a: Aid, b: Aid, c: Change)
    requires Fenced(w) && CopiesOk(w) && Exclusive(w) && TaskOk(w) && Justified(w, c) && a in w.acts && b in w.acts && a != b
    requires Offers(w.acts[a], c, w.now, w.nuid) && BaseOf(w.acts[a], c) == TaskOf(w)
    requires w'.kv.Some? && w'.kv.value.task == Changed(TaskOf(w), c, ChangeTime(w.acts[a], c, w.now)) && w'.now == w.now
    ensures LeaseOk(w', w.acts[b])
  {
    assert CopyOk(w.acts[a]) && CopyOk(w.acts[b]) && LeaseOk(w, w.acts[b]);
    assert w.acts[b].lease.Some? ==> HandleOk(w, w.acts[b].lease.value);
    if w.acts[b].me.Some? {
      ChangedLeaseOk(w, w', c, ChangeTime(w.acts[a], c, w.now), w.acts[b], w.acts[a].me);
    }
  }

  lemma WonOwner(w: World, a: Aid, c: Change)
    requires a in w.acts && Offers(w.acts[a], c, w.now, w.nuid)
    ensures var act := Won(w.acts[a], c, w.now, w.seqNo + 1);
      && (act.me == w.acts[a].me || act.me == Some(w.nuid))
      && (!Active(w.acts[a]) ==> !Active(act) && act.me == w.acts[a].me)
  {
  }

  lemma OwnersWrote(w: World, w': World, a: Aid, act: Act)
    requires Exclusive(w) && IdsBelow(w) && a in w.acts && w'.acts == w.acts[a := act] && w'.writes == w.writes
    requires act.me == w.acts[a].me || act.me == Some(w.nuid)
    requires !Active(w.acts[a]) ==> !Active(act) && act.me == w.acts[a].me
    ensures Owners(w')
  {
    forall b | b in w.acts ensures BelowOpt(w.acts[b].me, w.nuid) {
      assert ActBelow(w.acts[b], w.nuid);
    }
    forall wr | wr in w.writes && wr.change.Claim? ensures wr.change.owner < w.nuid {
      assert WriteBelow(wr, w.nuid);
    }
  }

  lemma ExclusiveLand(w: World, wr: Write)
    requires Fenced(w) && CopiesOk(w) && TaskOk(w) && PendingOk(w) && Exclusive(w) && Enabled(w, LandWrite(wr))
    ensures Exclusive(Apply(w, LandWrite(wr)))
  {
    var w' := Apply(w, LandWrite(wr));
    LandFrame(w, wr);
    assert WriteOk(w, wr);
    forall b | b in w'.acts ensures LeaseOk(w', w'.acts[b]) {
      assert LeaseOk(w, w.acts[b]) && CopyOk(w.acts[b]);
      assert w.acts[b].lease.Some? ==> HandleOk(w, w.acts[b].lease.value);
      LandedLeaseOk(w, w', wr, b);
    }
    ExclusiveParts(w');
  }

  lemma LandedLeaseOk(w: World, w': World, wr: Write, b: Aid)
    requires Exclusive(w) && TaskOk(w) && Justified(w, wr.change) && wr in w.writes && b in w.acts
    requires CopyOk(w.acts[b]) && LeaseOk(w, w.acts[b]) && wr.base == TaskOf(w)
    requires w.acts[b].lease.Some? ==> w.kv.Some?
    requires w'.kv.Some? && w'.kv.value.task == Changed(TaskOf(w), wr.change, wr.at) && w'.now == w.now
    ensures LeaseOk(w', w.acts[b])
  {
    if w.acts[b].me.Some? {
      if Releasing(wr.change) {
        ChangedLeaseOk(w, w', wr.change, wr.at, w.acts[b], w.acts[wr.author].me);
      } else {
        ChangedLeaseOk(w, w', wr.change, wr.at, w.acts[b], None);
      }
    }
  }

  /** The record stands still; one activation moved without waking up. */
  lemma ExclusiveMoved(w: World, w': World, a: Aid, act: Act)
    requires Exclusive(w) && w'.acts == w.acts[a := act] && SameHandle(w, a, act)
    requires w'.kv == w.kv && w'.writes == w.writes && w'.now == w.now
    requires a in w.acts && !Active(w.acts[a]) ==> !Active(act)
    ensures Exclusive(w')
  {
    forall b | b in w'.acts ensures LeaseOk(w', w'.acts[b]) {
      assert b in w.acts ==> LeaseOk(w, w.acts[b]);
    }
  }

  /** What a refused request leaves in flight. */
  predicate RefusedFits(w: World, a: Aid, act: Act, wr: Write) {
    && (Releasing(wr.change) ==>
          wr.author == a && !Active(act) && wr.base.Some? && (wr.base.value.owner.Some? ==> wr.base.value.owner == act.me))
    && (wr.change.Claim? ==> wr.change.owner == w.nuid)
  }

  lemma OwnersRefused(w: World, w': World, a: Aid, act: Act, wr: Write)
    requires Owners(w) && IdsBelow(w) && a in w.acts && w'.acts == w.acts[a := act] && SameHandle(w, a, act)
    requires w'.writes <= w.writes + {wr} && (!Active(w.acts[a]) ==> !Active(act)) && RefusedFits(w, a, act, wr)
    ensures Owners(w')
  {
    forall b | b in w'.acts ensures w'.acts[b].me != Some(w.nuid) {
      assert ActBelow(w.acts[b], w.nuid);
    }
  }

  lemma ExclusiveRefused(w: World, w': World, a: Aid, act: Act, wr: Write)
    requires Exclusive(w) && IdsBelow(w) && a in w.acts && w'.acts == w.acts[a := act] && SameHandle(w, a, act)
    requires w'.kv == w.kv && w'.now == w.now && w'.writes <= w.writes + {wr}
    requires (!Active(w.acts[a]) ==> !Active(act)) && RefusedFits(w, a, act, wr)
    ensures Exclusive(w')
  {
    ExclusiveParts(w);
    OwnersRefused(w, w', a, act, wr);
    forall b | b in w'.acts ensures LeaseOk(w', w'.acts[b]) {
      assert LeaseOk(w, w.acts[b]);
    }
    ExclusiveParts(w');
  }

  lemma BadFits(w: World, a: Aid, c: Change)
    requires a in w.acts && CopyOk(w.acts[a]) && Offers(w.acts[a], c, w.now, w.nuid)
    ensures var act := w.acts[a];
      RefusedFits(w, a, Lost(act, c), Write(a, Expected(act, c), BaseOf(act, c), c, ChangeTime(act, c, w.now)))
  {
  }

  lemma ExclusiveBad(w: World, a: Aid, c: Change, sent: bool)
    requires CopiesOk(w) && IdsBelow(w) && Exclusive(w) && Enabled(w, Cas(a, c, Bad(sent)))
    ensures Exclusive(Apply(w, Cas(a, c, Bad(sent))))
  {
    var act := w.acts[a];
    assert CopyOk(act);
    BadFits(w, a, c);
    BadFrame(w, a, c, sent);
    ExclusiveRefused(w, Apply(w, Cas(a, c, Bad(sent))), a, Lost(act, c),
                     Write(a, Expected(act, c), BaseOf(act, c), c, ChangeTime(act, c, w.now)));
  }

  lemma ExclusiveStore(w: World, l: Label)
    requires Exclusive(w) && Enabled(w, l) && (l.Put? || l.Publish?)
    ensures Exclusive(Apply(w, l))
  {
    StoreHandle(w, l);
    ExclusiveMoved(w, Apply(w, l), Actor(l).value, NextAct(w, l));
  }

  lemma ExclusiveQuiet(w: World, l: Label)
    requires Exclusive(w) && Enabled(w, l) && Quiet(l)
    ensures Exclusive(Apply(w, l))
  {
    QuietFrame(w, l);
    QuietHandle(w, l);
    ExclusiveMoved(w, Apply(w, l), Actor(l).value, NextAct(w, l));
  }

  lemma ExclusiveOther(w: World, l: Label)
    requires Exclusive(w) && Enabled(w, l) && (l.Tick? || l.LandPut? || l.LandSend?)
    ensures Exclusive(Apply(w, l))
  {
    var w' := Apply(w, l);
    forall b | b in w'.acts ensures LeaseOk(w', w'.acts[b]) {
      assert LeaseOk(w, w.acts[b]);
    }
  }

  lemma ExclusiveStep(w: World, l: Label)
    requires Grounds(w) && PendingOk(w) && Enabled(w, l)
    ensures Exclusive(Apply(w, l))
  {
    if l.Cas? {
      if l.out == Good { ExclusiveGood(w, l.a, l.change); } else { ExclusiveBad(w, l.a, l.change, l.out.sent); }
    } else if Quiet(l) {
      ExclusiveQuiet(w, l);
    } else if l.LandWrite? {
      ExclusiveLand(w, l.w);
    } else if l.Put? || l.Publish? {
      ExclusiveStore(w, l);
    } else {
      ExclusiveOther(w, l);
    }
  }
}
