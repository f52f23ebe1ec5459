/** What a task has put on the EVENTS stream: first copies in batch order, counted exactly. */
module WorkStream {
  import opened Work
  import opened WorkInvariant
  import opened WorkFrames
  import opened WorkRecord

  // ---------------------------------------------------------------- the record changes

  /** What a justified write leaves true of the stream. */
  lemma ChangedCopyFits(w: World, w': World, c: Change, at: nat)
    requires StreamOk(w) && TaskOk(w) && Justified(w, c)
    requires w'.kv.Some? && w'.kv.value.task == Changed(TaskOf(w), c, at) && w'.outbox == w.outbox && w'.pub == w.pub
    ensures forall x :: x in w'.pub ==> CopyFits(w', x)
  {
    forall x | x in w'.pub ensures CopyFits(w', x) {
      assert CopyFits(w, x);
    }
  }

  lemma ChangedPrefix(w: World, w': World, c: Change, at: nat)
    requires Prefix(w) && TaskOk(w) && Justified(w, c)
    requires w'.kv.Some? && w'.kv.value.task == Changed(TaskOf(w), c, at) && w'.outbox == w.outbox && w'.pub == w.pub
    ensures Prefix(w')
  {
  }

  lemma ChangedSendable(w: World, w': World, c: Change, at: nat, key: Id, i: nat)
    requires TaskOk(w) && Justified(w, c) && Sendable(w, key, i) && key in w.outbox && i < |w.outbox[key].events|
    requires w'.kv.Some? && w'.kv.value.task == Changed(TaskOf(w), c, at) && w'.outbox == w.outbox && w'.pub == w.pub
    ensures Sendable(w', key, i)
  {
  }

  lemma ChangedLoops(w: World, w': World, c: Change, at: nat)
    requires LoopsReady(w, w.acts) && TaskOk(w) && SavedOk(w) && Justified(w, c)
    requires w'.kv.Some? && w'.kv.value.task == Changed(TaskOf(w), c, at) && w'.outbox == w.outbox && w'.pub == w.pub
    ensures LoopsReady(w', w.acts)
  {
    forall a | a in w.acts && w.acts[a].pc.Loop? && w.acts[a].pc.i < |w.acts[a].pc.batch.events|
      ensures Sendable(w', w.acts[a].pc.key, w.acts[a].pc.i)
    {
      assert ActSaved(w, w.acts[a]);
      ChangedSendable(w, w', c, at, w.acts[a].pc.key, w.acts[a].pc.i);
    }
  }

  lemma ChangedSends(w: World, w': World, c: Change, at: nat)
    requires SendsReady(w) && TaskOk(w) && Justified(w, c)
    requires w'.kv.Some? && w'.kv.value.task == Changed(TaskOf(w), c, at) && w'.outbox == w.outbox && w'.pub == w.pub
    requires w'.sends == w.sends
    ensures SendsReady(w')
  {
    forall key, j | key in w.sends && 0 <= j < |w.sends[key]| ensures SendFits(w', key, w.sends[key][j]) {
      assert SendFits(w, key, w.sends[key][j]);
      ChangedSendable(w, w', c, at, key, w.sends[key][j]);
    }
  }

  lemma ChangedSending(w: World, w': World, c: Change, at: nat)
    requires Sending(w, w.acts) && TaskOk(w) && SavedOk(w) && Justified(w, c)
    requires w'.kv.Some? && w'.kv.value.task == Changed(TaskOf(w), c, at) && w'.outbox == w.outbox && w'.pub == w.pub
    requires w'.sends == w.sends
    ensures Sending(w', w.acts)
  {
    ChangedLoops(w, w', c, at);
    ChangedSends(w, w', c, at);
  }

  lemma StreamGood(w: World, a: Aid, c: Change)
    requires Grounds(w) && Enabled(w, Cas(a, c, Good))
    ensures StreamOk(Apply(w, Cas(a, c, Good)))
  {
    OfferJustified(w, a, c);
    StreamWrites(w, a, c);
  }

  lemma StreamWrites(w: World, a: Aid, c: Change)
    requires StreamOk(w) && TaskOk(w) && SavedOk(w) && CopiesOk(w) && Enabled(w, Cas(a, c, Good))
    requires Justified(w, c) && BaseOf(w.acts[a], c) == TaskOf(w)
    ensures StreamOk(Apply(w, Cas(a, c, Good)))
  {
    var w' := Apply(w, Cas(a, c, Good));
    var at := ChangeTime(w.acts[a], c, w.now);
    GoodFrame(w, a, c);
    ChangedCopyFits(w, w', c, at);
    ChangedPrefix(w, w', c, at);
    ChangedSending(w, w', c, at);
    WonSends(w, w', a, c);
  }

  lemma WonSends(w: World, w': World, a: Aid, c: Change)
    requires CopiesOk(w) && a in w.acts && Offers(w.acts[a], c, w.now, w.nuid) && Sending(w', w.acts)
    requires var act := Won(w.acts[a], c, w.now, w.seqNo + 1);
      && w'.acts == w.acts[a := act] && w'.kv.Some? && act.lease.Some? && w'.kv.value.task == act.lease.value.task
    ensures Sending(w', w'.acts)
  {
    assert CopyOk(w.acts[a]);
  }

  lemma StreamLand(w: World, wr: Write)
    requires Fenced(w) && StreamOk(w) && TaskOk(w) && SavedOk(w) && PendingOk(w) && Enabled(w, LandWrite(wr))
    ensures StreamOk(Apply(w, LandWrite(wr)))
  {
    var w' := Apply(w, LandWrite(wr));
    LandFrame(w, wr);
    assert WriteOk(w, wr);
    ChangedCopyFits(w, w', wr.change, wr.at);
    ChangedPrefix(w, w', wr.change, wr.at);
    ChangedSending(w, w', wr.change, wr.at);
  }

  // ---------------------------------------------------------------- the stream grows

  lemma SentCopy(w: World, w': World, key: Id, i: nat)
    requires StreamOk(w) && Sendable(w, key, i) && key in w.outbox && i < |w.outbox[key].events| && w.kv.Some?
    requires w'.kv == w.kv && w'.outbox == w.outbox && w'.pub == w.pub + [Copy(key, i)]
    ensures forall x :: x in w'.pub ==> CopyFits(w', x)
    ensures InOrder(w'.pub)
    ensures forall k, j :: Sendable(w, k, j) ==> Sendable(w', k, j)
  {
    var x := Copy(key, i);
    assert x in w.pub ==> CopyFits(w, x);
    forall y | y in w'.pub ensures CopyFits(w', y) {
      assert y in w.pub || y == x;
      assert y in w.pub ==> CopyFits(w, y);
    }
    forall j | 0 <= j < i ensures Copy(key, j) in w.pub {
      if x in w.pub {
        var p :| 0 <= p < |w.pub| && w.pub[p] == x;
        assert Copy(key, j) in w.pub[..p];
      }
    }
    forall p, j | 0 <= p < |w'.pub| && 0 <= j < w'.pub[p].index ensures Copy(w'.pub[p].key, j) in w'.pub[..p] {
      if p < |w.pub| {
        assert w'.pub[..p] == w.pub[..p];
      } else {
        assert w'.pub[..p] == w.pub;
      }
    }
  }

  lemma StreamPublish(w: World, a: Aid, dup: bool, out: Outcome)
    requires Fenced(w) && CopiesOk(w) && SavedOk(w) && StreamOk(w) && Enabled(w, Publish(a, dup, out))
    ensures StreamOk(Apply(w, Publish(a, dup, out)))
  {
    PublishGrounds(w, a);
    if out == Good { StreamAccepted(w, a, dup); } else { StreamFailed(w, a, dup, out); }
  }

  /** An output about to be published is a saved one, and its turn has come. */
  lemma PublishGrounds(w: World, a: Aid)
    requires Fenced(w) && CopiesOk(w) && SavedOk(w) && StreamOk(w)
    requires a in w.acts && w.acts[a].pc.Loop? && w.acts[a].pc.i < |w.acts[a].pc.batch.events|
    ensures var pc := w.acts[a].pc;
      w.kv.Some? && pc.key in w.outbox && w.outbox[pc.key] == pc.batch && Sendable(w, pc.key, pc.i)
  {
    var act := w.acts[a];
    assert CopyOk(act) && HandleOk(w, act.lease.value) && ActSaved(w, act);
  }

  lemma StreamFailed(w: World, a: Aid, dup: bool, out: Outcome)
    requires StreamOk(w) && Enabled(w, Publish(a, dup, out)) && out.Bad?
    requires var pc := w.acts[a].pc; pc.key in w.outbox && pc.i < |w.outbox[pc.key].events| && Sendable(w, pc.key, pc.i)
    ensures StreamOk(Apply(w, Publish(a, dup, out)))
  {
    var pc := w.acts[a].pc;
    StreamDelayed(w, Apply(w, Publish(a, dup, out)), a, NextAct(w, Publish(a, dup, out)), pc.key, pc.i);
  }

  lemma StreamAccepted(w: World, a: Aid, dup: bool)
    requires StreamOk(w) && Enabled(w, Publish(a, dup, Good)) && w.kv.Some?
    requires var pc := w.acts[a].pc; pc.key in w.outbox && pc.i < |w.outbox[pc.key].events| && Sendable(w, pc.key, pc.i)
    ensures StreamOk(Apply(w, Publish(a, dup, Good)))
  {
    var pc := w.acts[a].pc;
    var w' := Apply(w, Publish(a, dup, Good));
    if !dup {
      SentCopy(w, w', pc.key, pc.i);
    } else {
      forall x | x in w'.pub ensures CopyFits(w', x) { assert CopyFits(w, x); }
    }
    StreamSent(w, w', a, NextAct(w, Publish(a, dup, Good)), pc.key, pc.i);
  }

  lemma StreamSent(w: World, w': World, a: Aid, act: Act, key: Id, i: nat)
    requires StreamOk(w) && a in w.acts && w'.acts == w.acts[a := act] && act.pc.Advancing? && act.pc.key == key && act.pc.i == i
    requires w'.kv == w.kv && w'.outbox == w.outbox && w'.sends == w.sends
    requires (forall x :: x in w'.pub ==> CopyFits(w', x)) && InOrder(w'.pub)
    requires forall x :: x in w.pub ==> x in w'.pub
    requires Copy(key, i) in w'.pub
    ensures StreamOk(w')
  {
  }

  lemma StreamDelayed(w: World, w': World, a: Aid, act: Act, key: Id, i: nat)
    requires StreamOk(w) && a in w.acts && w'.acts == w.acts[a := act] && act.pc.Deferring?
    requires w'.kv == w.kv && w'.outbox == w.outbox && w'.pub == w.pub
    requires Sendable(w, key, i) && key in w.outbox && i < |w.outbox[key].events|
    requires w'.sends == w.sends || w'.sends == w.sends[key := Sends(w, key) + [i]]
    ensures StreamOk(w')
  {
  }

  lemma StreamLandSend(w: World, key: Id, j: nat, dup: bool)
    requires StreamOk(w) && SavedOk(w) && Enabled(w, LandSend(key, j, dup))
    ensures StreamOk(Apply(w, LandSend(key, j, dup)))
  {
    var w' := Apply(w, LandSend(key, j, dup));
    var i := w.sends[key][j];
    if !dup {
      SentCopy(w, w', key, i);
    } else {
      forall x | x in w'.pub ensures CopyFits(w', x) { assert CopyFits(w, x); }
    }
    StreamArrived(w, w', key, j);
  }

  lemma StreamArrived(w: World, w': World, key: Id, j: nat)
    requires StreamOk(w) && key in w.sends && j < |w.sends[key]|
    requires w'.acts == w.acts && w'.kv == w.kv && w'.outbox == w.outbox
    requires w'.sends == w.sends[key := Removed(w.sends[key], j)]
    requires (forall x :: x in w'.pub ==> CopyFits(w', x)) && InOrder(w'.pub)
    requires forall x :: x in w.pub ==> x in w'.pub
    ensures StreamOk(w')
  {
    assert Prefix(w');
    assert LoopsReady(w', w'.acts);
    forall k, m | k in w'.sends && 0 <= m < |w'.sends[k]| ensures SendFits(w', k, w'.sends[k][m]) {
      var m0 := if k == key && m >= j then m + 1 else m;
      assert w'.sends[k][m] == w.sends[k][m0];
      assert SendFits(w, k, w.sends[k][m0]);
    }
  }

  // ---------------------------------------------------------------- everything else

  /** The stream is as it was; nobody new is about to publish. */
  lemma StreamKept(w: World, w': World)
    requires StreamOk(w) && Gained(w, w') && w'.kv == w.kv && w'.pub == w.pub && w'.sends == w.sends
    requires forall b :: b in w'.acts && (w'.acts[b].pc.Loop? || w'.acts[b].pc.Advancing?) ==>
               b in w.acts && w.acts[b].pc == w'.acts[b].pc
    ensures StreamOk(w')
  {
    forall x | x in w'.pub ensures CopyFits(w', x) {
      assert CopyFits(w, x);
    }
    KeptLoops(w, w');
    KeptSends(w, w');
  }

  lemma KeptSendable(w: World, w': World, key: Id, i: nat)
    requires Sendable(w, key, i) && w'.kv == w.kv && forall x :: x in w.pub ==> x in w'.pub
    ensures Sendable(w', key, i)
  {
  }

  lemma KeptLoops(w: World, w': World)
    requires Sending(w, w.acts) && w'.kv == w.kv && w'.pub == w.pub
    requires forall b :: b in w'.acts && (w'.acts[b].pc.Loop? || w'.acts[b].pc.Advancing?) ==>
               b in w.acts && w.acts[b].pc == w'.acts[b].pc
    ensures LoopsReady(w', w'.acts) && AdvancesSent(w', w'.acts)
  {
    forall b | b in w'.acts && w'.acts[b].pc.Loop? && w'.acts[b].pc.i < |w'.acts[b].pc.batch.events|
      ensures Sendable(w', w'.acts[b].pc.key, w'.acts[b].pc.i)
    {
      KeptSendable(w, w', w.acts[b].pc.key, w.acts[b].pc.i);
    }
  }

  lemma KeptSends(w: World, w': World)
    requires SendsReady(w) && w'.kv == w.kv && w'.pub == w.pub && w'.sends == w.sends && Gained(w, w')
    ensures SendsReady(w')
  {
    forall key, j | key in w.sends && 0 <= j < |w.sends[key]| ensures SendFits(w', key, w.sends[key][j]) {
      assert SendFits(w, key, w.sends[key][j]);
      KeptSendable(w, w', key, w.sends[key][j]);
    }
  }

  lemma StreamOther(w: World, l: Label)
    requires SavedOk(w) && StreamOk(w) && Enabled(w, l) && (l.Tick? || l.LandPut? || l.Put?)
    ensures StreamOk(Apply(w, l))
  {
    GainStep(w, l);
    StreamKept(w, Apply(w, l));
  }

  lemma StreamBad(w: World, a: Aid, c: Change, sent: bool)
    requires StreamOk(w) && Enabled(w, Cas(a, c, Bad(sent)))
    ensures StreamOk(Apply(w, Cas(a, c, Bad(sent))))
  {
    BadFrame(w, a, c, sent);
    StreamKept(w, Apply(w, Cas(a, c, Bad(sent))));
  }

  lemma StreamQuiet(w: World, l: Label)
    requires StreamOk(w) && Enabled(w, l) && Quiet(l)
    ensures StreamOk(Apply(w, l))
  {
    QuietFrame(w, l);
    QuietStill(w, l);
    StreamKept(w, Apply(w, l));
  }

  /** Quiet steps do not lead into the publishing loop. */
  lemma QuietStill(w: World, l: Label)
    requires Enabled(w, l) && Quiet(l) && Actor(l).Some?
    ensures !NextAct(w, l).pc.Loop? && !NextAct(w, l).pc.Advancing? && !NextAct(w, l).pc.Armed?
  {
  }

  lemma StreamStep(w: World, l: Label)
    requires Grounds(w) && PendingOk(w) && Enabled(w, l)
    ensures StreamOk(Apply(w, l))
  {
    if l.Cas? {
      if l.out == Good { StreamGood(w, l.a, l.change); } else { StreamBad(w, l.a, l.change, l.out.sent); }
    } else if Quiet(l) {
      StreamQuiet(w, l);
    } else if l.LandWrite? {
      StreamLand(w, l.w);
    } else if l.Publish? {
      StreamPublish(w, l.a, l.dup, l.out);
    } else if l.LandSend? {
      StreamLandSend(w, l.key, l.j, l.dup);
    } else {
      StreamOther(w, l);
    }
  }

  // ---------------------------------------------------------------- exact accounting

  lemma ChangedAccounted(w: World, w': World, c: Change, at: nat)
    requires Accounted(w) && StreamOk(w) && TaskOk(w) && Justified(w, c)
    requires w'.kv.Some? && w'.kv.value.task == Changed(TaskOf(w), c, at) && w'.pub == w.pub
    ensures Accounted(w')
  {
    forall x | x in w.pub ensures CopyFits(w, x) {}
    if w.kv.None? {
      assert |w.pub| > 0 ==> CopyFits(w, w.pub[0]);
      assert Distinct(w.pub) == {};
    } else {
      var t := w.kv.value.task;
      match c
      case Advance(i) => assert Copy(t.resultKey.value, i + 1) in w.pub ==> CopyFits(w, Copy(t.resultKey.value, i + 1));
      case Start(id) =>
        assert t.resultKey.Some? && Copy(t.resultKey.value, t.nextOutput) in w.pub ==> CopyFits(w, Copy(t.resultKey.value, t.nextOutput));
      case Retry(_, _) => assert Copy(t.resultKey.value, t.nextOutput) in w.pub ==> CopyFits(w, Copy(t.resultKey.value, t.nextOutput));
      case _ =>
    }
  }

  lemma SentAccounted(w: World, w': World, key: Id, i: nat)
    requires Accounted(w) && w.kv.Some? && Sendable(w, key, i)
    requires w'.kv == w.kv && w'.pub == w.pub + [Copy(key, i)]
    ensures Accounted(w')
  {
    var x := Copy(key, i);
    assert Distinct(w'.pub) == Distinct(w.pub) + {x};
    if x in w.pub {
      assert Distinct(w'.pub) == Distinct(w.pub);
    }
  }

  lemma AccountedStep(w: World, l: Label)
    requires Grounds(w) && PendingOk(w) && Accounted(w) && Enabled(w, l)
    ensures Accounted(Apply(w, l))
  {
    if l.Cas? {
      if l.out == Good { AccountedGood(w, l.a, l.change); } else { AccountedBad(w, l.a, l.change, l.out.sent); }
    } else if l.LandWrite? {
      AccountedLand(w, l.w);
    } else if l.Publish? {
      AccountedPublish(w, l.a, l.dup, l.out);
    } else if l.LandSend? {
      AccountedLandSend(w, l.key, l.j, l.dup);
    } else {
      AccountedOther(w, l);
    }
  }

  lemma AccountedGood(w: World, a: Aid, c: Change)
    requires Grounds(w) && Accounted(w) && Enabled(w, Cas(a, c, Good))
    ensures Accounted(Apply(w, Cas(a, c, Good)))
  {
    OfferJustified(w, a, c);
    GoodFrame(w, a, c);
    ChangedAccounted(w, Apply(w, Cas(a, c, Good)), c, ChangeTime(w.acts[a], c, w.now));
  }

  lemma AccountedBad(w: World, a: Aid, c: Change, sent: bool)
    requires Accounted(w) && Enabled(w, Cas(a, c, Bad(sent)))
    ensures Accounted(Apply(w, Cas(a, c, Bad(sent))))
  {
    BadFrame(w, a, c, sent);
  }

  lemma AccountedLand(w: World, wr: Write)
    requires Fenced(w) && StreamOk(w) && TaskOk(w) && PendingOk(w) && Accounted(w) && Enabled(w, LandWrite(wr))
    ensures Accounted(Apply(w, LandWrite(wr)))
  {
    LandFrame(w, wr);
    assert WriteOk(w, wr);
    ChangedAccounted(w, Apply(w, LandWrite(wr)), wr.change, wr.at);
  }

  lemma AccountedPublish(w: World, a: Aid, dup: bool, out: Outcome)
    requires Fenced(w) && CopiesOk(w) && StreamOk(w) && Accounted(w) && Enabled(w, Publish(a, dup, out))
    ensures Accounted(Apply(w, Publish(a, dup, out)))
  {
    PublishFrame(w, a, dup, out);
    if out == Good && !dup {
      LoopRecord(w, a);
      SentAccounted(w, Apply(w, Publish(a, dup, out)), w.acts[a].pc.key, w.acts[a].pc.i);
    }
  }

  /** A publishing activation belongs to a record. */
  lemma LoopRecord(w: World, a: Aid)
    requires Fenced(w) && CopiesOk(w) && a in w.acts && w.acts[a].pc.Loop?
    ensures w.kv.Some?
  {
    assert CopyOk(w.acts[a]) && HandleOk(w, w.acts[a].lease.value);
  }

  lemma AccountedLandSend(w: World, key: Id, j: nat, dup: bool)
    requires SavedOk(w) && StreamOk(w) && Accounted(w) && Enabled(w, LandSend(key, j, dup))
    ensures Accounted(Apply(w, LandSend(key, j, dup)))
  {
    if !dup {
      SentAccounted(w, Apply(w, LandSend(key, j, dup)), key, w.sends[key][j]);
    }
  }

  lemma AccountedOther(w: World, l: Label)
    requires Accounted(w) && Enabled(w, l) && !l.Cas? && !l.LandWrite? && !l.Publish? && !l.LandSend?
    ensures Accounted(Apply(w, l))
  {
    if Quiet(l) {
      QuietFrame(w, l);
    }
  }
}
