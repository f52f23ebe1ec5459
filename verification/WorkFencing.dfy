/** Every step keeps the handles, the revisions and the identifiers in order. */
module WorkFencing {
  import opened Work
  import opened WorkInvariant
  import opened WorkFrames

  // ---------------------------------------------------------------- CopiesOk

  lemma WonCopyOk(act: Act, c: Change, now: nat, nuid: Id, rev: nat)
    requires CopyOk(act) && Offers(act, c, now, nuid)
    ensures CopyOk(Won(act, c, now, rev))
  {
    match c
    case Claim(_, _, _) => WonClaim(act, c, now, nuid, rev);
    case Finish(_, _) => WonFinish(act, c, now, nuid, rev);
    case _ => WonOther(act, c, now, nuid, rev);
  }

  lemma WonClaim(act: Act, c: Change, now: nat, nuid: Id, rev: nat)
    requires CopyOk(act) && Offers(act, c, now, nuid) && c.Claim?
    ensures CopyOk(Won(act, c, now, rev))
  {
  }

  lemma WonFinish(act: Act, c: Change, now: nat, nuid: Id, rev: nat)
    requires CopyOk(act) && Offers(act, c, now, nuid) && c.Finish?
    ensures CopyOk(Won(act, c, now, rev))
  {
  }

  lemma WonOther(act: Act, c: Change, now: nat, nuid: Id, rev: nat)
    requires CopyOk(act) && Offers(act, c, now, nuid) && !c.Claim? && !c.Finish?
    ensures CopyOk(Won(act, c, now, rev))
  {
  }

  lemma CopiesStep(w: World, l: Label)
    requires CopiesOk(w) && SavedOk(w) && TaskOk(w) && Enabled(w, l)
    ensures CopiesOk(Apply(w, l))
  {
    if Actor(l).Some? {
      NextCopyOk(w, l);
    }
  }

  lemma NextCopyOk(w: World, l: Label)
    requires CopiesOk(w) && SavedOk(w) && TaskOk(w) && Enabled(w, l) && Actor(l).Some?
    ensures CopyOk(NextAct(w, l))
  {
    if l.Cas? {
      CasCopyOk(w, l.a, l.change, l.out);
    } else if l.Load? {
      LoadCopyOk(w, l.a);
    } else if l.Judge? {
      JudgeCopyOk(w, l.a);
    } else if l.Put? || l.Publish? || l.Call? || l.Return? {
      BatchCopyOk(w, l);
    } else {
      QuietCopyOk(w, l);
    }
  }

  lemma CasCopyOk(w: World, a: Aid, c: Change, out: Outcome)
    requires CopiesOk(w) && Enabled(w, Cas(a, c, out))
    ensures CopyOk(NextAct(w, Cas(a, c, out)))
  {
    assert CopyOk(w.acts[a]);
    if out == Good {
      WonCopyOk(w.acts[a], c, w.now, w.nuid, w.seqNo + 1);
    } else {
      LostCopyOk(w.acts[a], c);
    }
  }

  lemma LostCopyOk(act: Act, c: Change)
    requires CopyOk(act)
    ensures CopyOk(Lost(act, c))
  {
  }

  lemma LoadCopyOk(w: World, a: Aid)
    requires CopiesOk(w) && SavedOk(w) && Enabled(w, Load(a))
    ensures CopyOk(NextAct(w, Load(a)))
  {
  }

  lemma JudgeCopyOk(w: World, a: Aid)
    requires CopiesOk(w) && Enabled(w, Judge(a))
    ensures CopyOk(NextAct(w, Judge(a)))
  {
    assert CopyOk(w.acts[a]);
  }

  lemma BatchCopyOk(w: World, l: Label)
    requires CopiesOk(w) && Enabled(w, l) && (l.Put? || l.Publish? || l.Call? || l.Return?)
    ensures CopyOk(NextAct(w, l))
  {
    var act := w.acts[l.a];
    assert CopyOk(act);
    HandlerCopyOk(act);
    if l.Return? { SavingCopyOk(act, l.batch); }
  }

  /** The steps around the handler keep the activation's copy sound. */
  lemma HandlerCopyOk(act: Act)
    requires CopyOk(act)
    ensures act.pc.Armed? ==> CopyOk(act.(pc := Calling(act.pc.key)))
    ensures act.pc.Saving? ==> CopyOk(act.(pc := Marking(act.pc.key, act.pc.batch))) && CopyOk(act.(pc := Leaving))
    ensures act.pc.Loop? && act.pc.i < |act.pc.batch.events| ==>
      CopyOk(act.(pc := Advancing(act.pc.key, act.pc.batch, act.pc.i))) && CopyOk(act.(pc := Deferring(act.pc.key, act.pc.batch, act.pc.i)))
  {
  }

  lemma SavingCopyOk(act: Act, batch: Batch)
    requires CopyOk(act) && act.pc.Calling?
    ensures CopyOk(act.(pc := Saving(act.pc.key, batch)))
  {
  }

  lemma QuietCopyOk(w: World, l: Label)
    requires CopiesOk(w) && TaskOk(w) && Enabled(w, l) && (l.Deliver? || l.Get? || l.Decline? || l.Ack? || l.Stop?)
    ensures CopyOk(NextAct(w, l))
  {
    if l.Deliver? || l.Get? { ArrivingCopyOk(w, l); } else { ReturningCopyOk(w, l); }
  }

  lemma ArrivingCopyOk(w: World, l: Label)
    requires CopiesOk(w) && TaskOk(w) && Enabled(w, l) && (l.Deliver? || l.Get?)
    ensures CopyOk(NextAct(w, l))
  {
  }

  lemma ReturningCopyOk(w: World, l: Label)
    requires CopiesOk(w) && Enabled(w, l) && (l.Decline? || l.Ack? || l.Stop?)
    ensures CopyOk(NextAct(w, l))
  {
    assert CopyOk(w.acts[l.a]);
    IdleCopyOk(w.acts[l.a]);
  }

  lemma IdleCopyOk(act: Act)
    requires CopyOk(act)
    ensures CopyOk(act.(pc := Leaving)) && CopyOk(act.(pc := Acking)) && CopyOk(act.(pc := Gone))
  {
  }

  // ---------------------------------------------------------------- Fenced

  lemma FencedStep(w: World, l: Label)
    requires Fenced(w) && CopiesOk(w) && Enabled(w, l)
    ensures Fenced(Apply(w, l))
  {
    if l.Cas? {
      if l.out == Good { FencedGood(w, l.a, l.change); } else { FencedBad(w, l.a, l.change, l.out.sent); }
    } else if Quiet(l) {
      FencedQuiet(w, l);
    } else if l.LandWrite? {
      FencedLand(w, l.w);
    } else if l.Put? || l.Publish? {
      FencedStore(w, l);
    } else {
      FencedOther(w, l);
    }
  }

  lemma FencedGood(w: World, a: Aid, c: Change)
    requires Fenced(w) && Enabled(w, Cas(a, c, Good))
    ensures Fenced(Apply(w, Cas(a, c, Good)))
  {
    var w' := Apply(w, Cas(a, c, Good));
    GoodFrame(w, a, c);
    FencedWrote(w, w', a, w'.acts[a], w'.kv.value.task);
  }

  lemma FencedLand(w: World, wr: Write)
    requires Fenced(w) && Enabled(w, LandWrite(wr))
    ensures Fenced(Apply(w, LandWrite(wr)))
  {
    LandFrame(w, wr);
    FencedLanded(w, Apply(w, LandWrite(wr)), Apply(w, LandWrite(wr)).kv.value.task);
  }

  lemma FencedOther(w: World, l: Label)
    requires Fenced(w) && Enabled(w, l) && (l.Tick? || l.LandPut? || l.LandSend?)
    ensures Fenced(Apply(w, l))
  {
  }

  lemma FencedWrote(w: World, w': World, a: Aid, act: Act, t: Task)
    requires Fenced(w) && a in w.acts && Wrote(w, w', a, act, t) && (act.pc.Seen? ==> act.pc == w.acts[a].pc)
    ensures Fenced(w')
  {
  }

  lemma FencedLanded(w: World, w': World, t: Task)
    requires Fenced(w) && Landed(w, w', t)
    ensures Fenced(w')
  {
  }

  lemma FencedBad(w: World, a: Aid, c: Change, sent: bool)
    requires Fenced(w) && CopiesOk(w) && Enabled(w, Cas(a, c, Bad(sent)))
    ensures Fenced(Apply(w, Cas(a, c, Bad(sent))))
  {
    var act := w.acts[a];
    assert CopyOk(act);
    BadFrame(w, a, c, sent);
    FencedRefused(w, Apply(w, Cas(a, c, Bad(sent))), a, Lost(act, c),
                  Write(a, Expected(act, c), BaseOf(act, c), c, ChangeTime(act, c, w.now)));
  }

  lemma FencedRefused(w: World, w': World, a: Aid, act: Act, wr: Write)
    requires Fenced(w) && Refused(w, w', a, act, wr) && SameHandle(w, a, act) && WriteOk(w, wr)
    requires act.pc.Seen? ==> a in w.acts && act.pc == w.acts[a].pc
    ensures Fenced(w')
  {
  }

  lemma FencedStore(w: World, l: Label)
    requires Fenced(w) && Enabled(w, l) && (l.Put? || l.Publish?)
    ensures Fenced(Apply(w, l))
  {
    StoreHandle(w, l);
    FencedMoved(w, Apply(w, l), Actor(l).value, NextAct(w, l));
  }

  lemma FencedQuiet(w: World, l: Label)
    requires Fenced(w) && Enabled(w, l) && Quiet(l)
    ensures Fenced(Apply(w, l))
  {
    QuietFrame(w, l);
    QuietHandle(w, l);
    FencedMoved(w, Apply(w, l), Actor(l).value, NextAct(w, l));
  }

  lemma FencedMoved(w: World, w': World, a: Aid, act: Act)
    requires Fenced(w) && w'.acts == w.acts[a := act] && SameHandle(w, a, act)
    requires w'.kv == w.kv && w'.seqNo == w.seqNo && w'.writes == w.writes && w'.now == w.now
    requires act.pc.Seen? ==> act.pc == Seen(w.kv, w.now)
    ensures Fenced(w')
  {
  }

  // ---------------------------------------------------------------- IdsBelow

  lemma IdsStep(w: World, l: Label)
    requires Fenced(w) && CopiesOk(w) && IdsBelow(w) && Enabled(w, l)
    ensures IdsBelow(Apply(w, l))
  {
    if l.Cas? {
      if l.out == Good { IdsGood(w, l.a, l.change); } else { IdsBad(w, l.a, l.change, l.out.sent); }
    } else if Quiet(l) {
      IdsQuiet(w, l);
    } else if l.LandWrite? {
      IdsLand(w, l.w);
    } else if l.Put? {
      IdsPut(w, l);
    } else if l.Publish? {
      IdsPublish(w, l);
    } else {
      IdsOther(w, l);
    }
  }

  lemma IdsGood(w: World, a: Aid, c: Change)
    requires CopiesOk(w) && IdsBelow(w) && Enabled(w, Cas(a, c, Good))
    ensures IdsBelow(Apply(w, Cas(a, c, Good)))
  {
    GoodFrame(w, a, c);
    WonBelow(w.acts[a], c, w.now, w.nuid, w.seqNo + 1);
    IdsWrote(w, Apply(w, Cas(a, c, Good)), a, Won(w.acts[a], c, w.now, w.seqNo + 1), Apply(w, Cas(a, c, Good)).kv.value.task);
  }

  lemma WonBelow(act: Act, c: Change, now: nat, nuid: Id, rev: nat)
    requires CopyOk(act) && ActBelow(act, nuid) && Offers(act, c, now, nuid)
    ensures ActBelow(Won(act, c, now, rev), nuid + (if c.Claim? || c.Start? then 1 else 0))
  {
  }

  lemma IdsWrote(w: World, w': World, a: Aid, act: Act, t: Task)
    requires IdsBelow(w) && Wrote(w, w', a, act, t) && ActBelow(act, w'.nuid)
    ensures IdsBelow(w')
  {
  }

  lemma IdsBad(w: World, a: Aid, c: Change, sent: bool)
    requires CopiesOk(w) && IdsBelow(w) && Enabled(w, Cas(a, c, Bad(sent)))
    ensures IdsBelow(Apply(w, Cas(a, c, Bad(sent))))
  {
    var act := w.acts[a];
    BadFrame(w, a, c, sent);
    var wr := Write(a, Expected(act, c), BaseOf(act, c), c, ChangeTime(act, c, w.now));
    OfferBelow(act, c, w.now, w.nuid, wr);
    IdsRefused(w, Apply(w, Cas(a, c, Bad(sent))), a, Lost(act, c), wr);
  }

  lemma OfferBelow(act: Act, c: Change, now: nat, nuid: Id, wr: Write)
    requires CopyOk(act) && ActBelow(act, nuid) && Offers(act, c, now, nuid)
    requires wr.change == c && wr.base == BaseOf(act, c)
    ensures WriteBelow(wr, nuid + (if c.Claim? || c.Start? then 1 else 0))
  {
  }

  lemma IdsRefused(w: World, w': World, a: Aid, act: Act, wr: Write)
    requires IdsBelow(w) && a in w.acts && Refused(w, w', a, act, wr) && WriteBelow(wr, w'.nuid)
    requires SameHandle(w, a, act) && (act.pc == w.acts[a].pc || act.pc == Leaving)
    ensures IdsBelow(w')
  {
  }

  lemma IdsLand(w: World, wr: Write)
    requires IdsBelow(w) && Enabled(w, LandWrite(wr))
    ensures IdsBelow(Apply(w, LandWrite(wr)))
  {
    LandFrame(w, wr);
    assert WriteBelow(wr, w.nuid);
    assert TaskBelow(Changed(wr.base, wr.change, wr.at), w.nuid);
    IdsLanded(w, Apply(w, LandWrite(wr)), Changed(wr.base, wr.change, wr.at));
  }

  lemma IdsLanded(w: World, w': World, t: Task)
    requires IdsBelow(w) && Landed(w, w', t) && TaskBelow(t, w.nuid)
    ensures IdsBelow(w')
  {
  }

  lemma IdsPut(w: World, l: Label)
    requires IdsBelow(w) && Enabled(w, l) && l.Put?
    ensures IdsBelow(Apply(w, l))
  {
    assert ActBelow(w.acts[l.a], w.nuid);
    PutFrame(w, l.a, l.out);
    IdsStored(w, Apply(w, l), l.a, Apply(w, l).acts[l.a], w.acts[l.a].pc.key);
  }

  lemma IdsPublish(w: World, l: Label)
    requires IdsBelow(w) && Enabled(w, l) && l.Publish?
    ensures IdsBelow(Apply(w, l))
  {
    assert ActBelow(w.acts[l.a], w.nuid);
    PublishFrame(w, l.a, l.dup, l.out);
    IdsStored(w, Apply(w, l), l.a, Apply(w, l).acts[l.a], w.acts[l.a].pc.key);
  }

  /** Something was stored or sent under this key. */
  lemma IdsStored(w: World, w': World, a: Aid, act: Act, key: Id)
    requires IdsBelow(w) && a in w.acts && w'.acts == w.acts[a := act] && SameHandle(w, a, act) && !act.pc.Seen?
    requires w'.nuid == w.nuid && w'.kv == w.kv && w'.writes == w.writes && BelowOpt(KeyAt(act.pc), w.nuid) && key < w.nuid
    requires w'.outbox.Keys <= w.outbox.Keys + {key} && w'.puts.Keys <= w.puts.Keys + {key}
    requires w'.calls.Keys <= w.calls.Keys + {key} && w'.sends.Keys <= w.sends.Keys + {key}
    requires forall c :: c in w'.pub ==> c in w.pub || c.key == key
    ensures IdsBelow(w')
  {
    assert ActBelow(w.acts[a], w.nuid);
  }

  lemma IdsOther(w: World, l: Label)
    requires IdsBelow(w) && Enabled(w, l) && (l.Tick? || l.LandPut? || l.LandSend?)
    ensures IdsBelow(Apply(w, l))
  {
  }

  lemma IdsQuiet(w: World, l: Label)
    requires CopiesOk(w) && IdsBelow(w) && Enabled(w, l) && Quiet(l)
    ensures IdsBelow(Apply(w, l))
  {
    QuietFrame(w, l);
    QuietBelow(w, l);
    IdsMoved(w, Apply(w, l), Actor(l).value, NextAct(w, l));
  }

  lemma QuietBelow(w: World, l: Label)
    requires CopiesOk(w) && IdsBelow(w) && Enabled(w, l) && Quiet(l) && Actor(l).Some?
    ensures ActBelow(NextAct(w, l), w.nuid)
  {
    if l.Deliver? || l.Get? || l.Load? { ArrivingBelow(w, l); } else { ReturningBelow(w, l); }
  }

  lemma ArrivingBelow(w: World, l: Label)
    requires CopiesOk(w) && IdsBelow(w) && Enabled(w, l) && (l.Deliver? || l.Get? || l.Load?)
    ensures ActBelow(NextAct(w, l), w.nuid)
  {
    assert !l.Deliver? ==> ActBelow(w.acts[l.a], w.nuid);
  }

  lemma ReturningBelow(w: World, l: Label)
    requires IdsBelow(w) && Enabled(w, l) && Quiet(l) && !l.Deliver? && !l.Get? && !l.Load? && Actor(l).Some?
    ensures ActBelow(NextAct(w, l), w.nuid)
  {
    assert ActBelow(w.acts[Actor(l).value], w.nuid);
  }

  lemma IdsMoved(w: World, w': World, a: Aid, act: Act)
    requires IdsBelow(w) && Moved(w, w', a, act) && ActBelow(act, w.nuid)
    ensures IdsBelow(w')
  {
  }
}
