/** Every write an activation may issue is justified by the state it was read in, and every justified
    write keeps the record, the outbox and the other writes in flight correct. */
module WorkRecord {
  import opened Wrappers
  import opened Work
  import opened WorkInvariant
  import opened WorkFrames

  // ---------------------------------------------------------------- offered writes are justified

  ghost predicate Grounds(w: World) {
    Fenced(w) && CopiesOk(w) && IdsBelow(w) && TaskOk(w) && SavedOk(w) && StreamOk(w) && Exclusive(w)
  }

  lemma OfferJustified(w: World, a: Aid, c: Change)
    requires Grounds(w) && a in w.acts && Offers(w.acts[a], c, w.now, w.nuid)
    requires Expected(w.acts[a], c) == CurrentRev(w)
    ensures BaseOf(w.acts[a], c) == TaskOf(w)
    ensures Justified(w, c)
  {
    var act := w.acts[a];
    assert CopyOk(act);
    if c.Claim? {
      ClaimJustified(w, act, c);
    } else {
      assert HandleOk(w, act.lease.value);
      assert act.lease.value.task == w.kv.value.task;
      match c
      case Beat(_) => BeatJustified(w, act, c);
      case Start(_) => StartJustified(w, a, c);
      case Finish(_, _) => FinishJustified(w, a, c);
      case _ => BatchJustified(w, a, c);
    }
  }

  lemma BeatJustified(w: World, act: Act, c: Change)
    requires Exclusive(w) && (exists a :: a in w.acts && w.acts[a] == act) && Offers(act, c, w.now, w.nuid) && c.Beat?
    requires w.kv.Some? && act.lease.Some? && act.lease.value.task == w.kv.value.task
    ensures Justified(w, c)
  {
    assert LeaseOk(w, act);
  }

  lemma ClaimJustified(w: World, act: Act, c: Change)
    requires Fenced(w) && CopyOk(act) && Offers(act, c, w.now, w.nuid) && c.Claim?
    requires SeenOk(w, act.pc.entry, act.pc.at) && Expected(act, c) == CurrentRev(w)
    ensures BaseOf(act, c) == TaskOf(w)
    ensures Justified(w, c)
  {
  }

  lemma StartJustified(w: World, a: Aid, c: Change)
    requires CopiesOk(w) && IdsBelow(w) && SavedOk(w) && a in w.acts && Offers(w.acts[a], c, w.now, w.nuid) && c.Start?
    requires w.kv.Some? && w.acts[a].lease.value.task == w.kv.value.task
    ensures Justified(w, c)
  {
    assert CopyOk(w.acts[a]);
    forall b | b in w.acts ensures KeyAt(w.acts[b].pc) != Some(c.id) {
      assert ActBelow(w.acts[b], w.nuid);
    }
    assert Virgin(w, c.id);
  }

  lemma FinishJustified(w: World, a: Aid, c: Change)
    requires CopiesOk(w) && SavedOk(w) && a in w.acts && Offers(w.acts[a], c, w.now, w.nuid) && c.Finish?
    requires w.kv.Some? && w.acts[a].lease.value.task == w.kv.value.task
    ensures Justified(w, c)
  {
    assert CopyOk(w.acts[a]);
  }

  lemma BatchJustified(w: World, a: Aid, c: Change)
    requires CopiesOk(w) && SavedOk(w) && StreamOk(w) && a in w.acts && Offers(w.acts[a], c, w.now, w.nuid)
    requires !c.Claim? && !c.Beat? && !c.Start? && !c.Finish?
    requires w.kv.Some? && w.acts[a].lease.value.task == w.kv.value.task
    ensures Justified(w, c)
  {
    assert CopyOk(w.acts[a]);
  }

  // ---------------------------------------------------------------- TaskOk

  lemma ChangedTaskOk(w: World, w': World, c: Change, at: nat)
    requires TaskOk(w) && Justified(w, c)
    requires w'.kv.Some? && w'.kv.value.task == Changed(TaskOf(w), c, at) && w'.outbox == w.outbox
    ensures TaskOk(w')
  {
    match c
    case Claim(_, _, _) =>
    case Finish(_, _) =>
    case _ =>
  }

  /** The outbox only gains keys, each with the batch its attempt produced. */
  predicate Gained(w: World, w': World) {
    forall key :: key in w.outbox ==> key in w'.outbox && w'.outbox[key] == w.outbox[key]
  }

  lemma GainedTaskOk(w: World, w': World)
    requires TaskOk(w) && Gained(w, w') && w'.kv == w.kv
    ensures TaskOk(w')
  {
  }

  lemma TaskStep(w: World, l: Label)
    requires Grounds(w) && PendingOk(w) && Enabled(w, l)
    ensures TaskOk(Apply(w, l))
  {
    if l.Cas? {
      TaskCas(w, l.a, l.change, l.out);
    } else if l.LandWrite? {
      TaskLand(w, l.w);
    } else {
      TaskGain(w, l);
    }
  }

  lemma TaskGain(w: World, l: Label)
    requires TaskOk(w) && SavedOk(w) && Enabled(w, l) && !l.LandWrite? && !l.Cas?
    ensures TaskOk(Apply(w, l))
  {
    GainStep(w, l);
    GainedTaskOk(w, Apply(w, l));
  }

  lemma TaskCas(w: World, a: Aid, c: Change, out: Outcome)
    requires Grounds(w) && PendingOk(w) && Enabled(w, Cas(a, c, out))
    ensures TaskOk(Apply(w, Cas(a, c, out)))
  {
    if out == Good {
      OfferJustified(w, a, c);
      TaskWrites(w, a, c);
    } else {
      BadFrame(w, a, c, out.sent);
    }
  }

  lemma TaskWrites(w: World, a: Aid, c: Change)
    requires TaskOk(w) && Enabled(w, Cas(a, c, Good)) && Justified(w, c) && BaseOf(w.acts[a], c) == TaskOf(w)
    ensures TaskOk(Apply(w, Cas(a, c, Good)))
  {
    GoodFrame(w, a, c);
    ChangedTaskOk(w, Apply(w, Cas(a, c, Good)), c, ChangeTime(w.acts[a], c, w.now));
  }

  lemma TaskLand(w: World, wr: Write)
    requires Fenced(w) && TaskOk(w) && PendingOk(w) && Enabled(w, LandWrite(wr))
    ensures TaskOk(Apply(w, LandWrite(wr)))
  {
    LandFrame(w, wr);
    assert WriteOk(w, wr);
    ChangedTaskOk(w, Apply(w, LandWrite(wr)), wr.change, wr.at);
  }

  lemma GainStep(w: World, l: Label)
    requires SavedOk(w) && Enabled(w, l) && !l.LandWrite? && !l.Cas?
    ensures Gained(w, Apply(w, l)) && Apply(w, l).kv == w.kv
  {
    if Quiet(l) {
      QuietFrame(w, l);
    } else if l.Put? {
      GainPut(w, l.a, l.out);
    } else if l.Publish? {
      GainPublish(w, l);
    }
  }

  lemma GainPut(w: World, a: Aid, out: Outcome)
    requires SavedOk(w) && Enabled(w, Put(a, out))
    ensures Gained(w, Apply(w, Put(a, out))) && Apply(w, Put(a, out)).kv == w.kv
  {
  }

  lemma GainPublish(w: World, l: Label)
    requires Enabled(w, l) && l.Publish?
    ensures Gained(w, Apply(w, l)) && Apply(w, l).kv == w.kv
  {
  }

  // ---------------------------------------------------------------- SavedOk

  lemma SavedStep(w: World, l: Label)
    requires Grounds(w) && Enabled(w, l)
    ensures SavedOk(Apply(w, l))
  {
    if l.Cas? {
      if l.out == Good { SavedGood(w, l.a, l.change); } else { SavedBad(w, l.a, l.change, l.out.sent); }
    } else if Quiet(l) {
      SavedQuiet(w, l);
    } else if l.LandWrite? {
      SavedLand(w, l.w);
    } else if l.Put? {
      SavedPut(w, l.a, l.out);
    } else if l.Publish? {
      SavedPublish(w, l);
    } else {
      SavedOther(w, l);
    }
  }

  /** One activation's part of SavedOk. */
  predicate ActSaved(w: World, act: Act) {
    && (Executing(act.pc) ==> act.pc.key !in w.outbox && act.pc.key !in w.puts)
    && (HasBatch(act.pc) ==> act.pc.key in w.outbox && w.outbox[act.pc.key] == act.pc.batch)
    && (act.lease.Some? && act.lease.value.task.status == Publishing ==> SavedFor(w, act.lease.value.task))
    && (act.pc == Missing || act.pc == Starting ==> act.lease.Some? && act.lease.value.task.status != Publishing)
    && act.pc != Failing(OutputMissing)
  }

  lemma SavedGood(w: World, a: Aid, c: Change)
    requires Grounds(w) && Enabled(w, Cas(a, c, Good))
    ensures SavedOk(Apply(w, Cas(a, c, Good)))
  {
    var act := w.acts[a];
    var act' := Won(act, c, w.now, w.seqNo + 1);
    GoodFrame(w, a, c);
    OfferJustified(w, a, c);
    WonSaved(w, a, c);
    SavedWrote(w, Apply(w, Cas(a, c, Good)), a, act', Apply(w, Cas(a, c, Good)).kv.value.task);
  }

  lemma WonSaved(w: World, a: Aid, c: Change)
    requires CopiesOk(w) && IdsBelow(w) && TaskOk(w) && SavedOk(w) && a in w.acts
    requires Offers(w.acts[a], c, w.now, w.nuid) && BaseOf(w.acts[a], c) == TaskOf(w)
    ensures var act := Won(w.acts[a], c, w.now, w.seqNo + 1);
      && ActSaved(w, act)
      && (Executing(act.pc) ==> act.pc == w.acts[a].pc || act.pc.key >= w.nuid)
  {
    var act := w.acts[a];
    assert CopyOk(act);
    assert ActSaved(w, act);
    match c
    case Claim(_, _, _) => ClaimSaved(w, act, c);
    case Start(_) => StartSaved(w, act, c);
    case Beat(_) => BeatSaved(w, act, c);
    case _ => OtherSaved(w, act, c);
  }

  lemma BeatSaved(w: World, act: Act, c: Change)
    requires ActSaved(w, act) && Offers(act, c, w.now, w.nuid) && c.Beat?
    ensures ActSaved(w, Won(act, c, w.now, w.seqNo + 1)) && Won(act, c, w.now, w.seqNo + 1).pc == act.pc
  {
  }

  lemma ClaimSaved(w: World, act: Act, c: Change)
    requires TaskOk(w) && Offers(act, c, w.now, w.nuid) && BaseOf(act, c) == TaskOf(w) && c.Claim?
    ensures ActSaved(w, Won(act, c, w.now, w.seqNo + 1)) && Won(act, c, w.now, w.seqNo + 1).pc == Leased
  {
  }

  lemma StartSaved(w: World, act: Act, c: Change)
    requires IdsBelow(w) && Offers(act, c, w.now, w.nuid) && c.Start?
    ensures ActSaved(w, Won(act, c, w.now, w.seqNo + 1)) && Won(act, c, w.now, w.seqNo + 1).pc == Armed(w.nuid)
  {
  }

  lemma OtherSaved(w: World, act: Act, c: Change)
    requires CopyOk(act) && ActSaved(w, act) && Offers(act, c, w.now, w.nuid)
    requires !c.Claim? && !c.Start? && !c.Beat?
    ensures ActSaved(w, Won(act, c, w.now, w.seqNo + 1)) && !Executing(Won(act, c, w.now, w.seqNo + 1).pc)
  {
  }

  lemma SavedWrote(w: World, w': World, a: Aid, act: Act, t: Task)
    requires SavedOk(w) && IdsBelow(w) && a in w.acts && Wrote(w, w', a, act, t) && ActSaved(w, act)
    requires Executing(act.pc) ==> act.pc == w.acts[a].pc || act.pc.key >= w.nuid
    ensures SavedOk(w')
  {
    forall b | b in w.acts && b != a && Executing(w.acts[b].pc) && Executing(act.pc) ensures w.acts[b].pc.key != act.pc.key {
      assert ActBelow(w.acts[b], w.nuid);
    }
    SavedRecord(w, w', a, act);
  }

  lemma SavedRecord(w: World, w': World, a: Aid, act: Act)
    requires SavedOk(w) && a in w.acts && w'.acts == w.acts[a := act] && w'.outbox == w.outbox && w'.puts == w.puts && w'.kv.Some?
    requires ActSaved(w, act)
    requires forall b :: b in w.acts && b != a && Executing(w.acts[b].pc) && Executing(act.pc) ==> w.acts[b].pc.key != act.pc.key
    ensures SavedOk(w')
  {
  }

  lemma SavedLand(w: World, wr: Write)
    requires SavedOk(w) && Enabled(w, LandWrite(wr))
    ensures SavedOk(Apply(w, LandWrite(wr)))
  {
    LandFrame(w, wr);
    SavedKept(w, Apply(w, LandWrite(wr)));
  }

  /** Only the record, the clock or the stream moved. */
  lemma SavedKept(w: World, w': World)
    requires SavedOk(w) && w'.acts == w.acts && w'.outbox == w.outbox && w'.puts == w.puts && (w.kv.Some? ==> w'.kv.Some?)
    ensures SavedOk(w')
  {
  }

  lemma SavedBad(w: World, a: Aid, c: Change, sent: bool)
    requires SavedOk(w) && Enabled(w, Cas(a, c, Bad(sent)))
    ensures SavedOk(Apply(w, Cas(a, c, Bad(sent))))
  {
    BadFrame(w, a, c, sent);
    SavedMoved(w, Apply(w, Cas(a, c, Bad(sent))), a, Lost(w.acts[a], c));
  }

  lemma SavedMoved(w: World, w': World, a: Aid, act: Act)
    requires SavedOk(w) && w'.acts == w.acts[a := act] && w'.outbox == w.outbox && w'.puts == w.puts && w'.kv == w.kv
    requires ActSaved(w, act)
    requires Executing(act.pc) ==> a in w.acts && Executing(w.acts[a].pc) && act.pc.key == w.acts[a].pc.key
    ensures SavedOk(w')
  {
  }

  lemma SavedPut(w: World, a: Aid, out: Outcome)
    requires Fenced(w) && CopiesOk(w) && SavedOk(w) && Enabled(w, Put(a, out))
    ensures SavedOk(Apply(w, Put(a, out)))
  {
    PutFrame(w, a, out);
    SavedStored(w, Apply(w, Put(a, out)), a, out);
  }

  lemma SavedStored(w: World, w': World, a: Aid, out: Outcome)
    requires Fenced(w) && CopiesOk(w) && SavedOk(w) && a in w.acts && w.acts[a].pc.Saving?
    requires var act := w.acts[a];
      && w'.acts == w.acts[a := act.(pc := if out == Good then Marking(act.pc.key, act.pc.batch) else Leaving)]
      && w' == w.(acts := w'.acts, outbox := w'.outbox, puts := w'.puts)
      && w'.outbox == (if out == Good then w.outbox[act.pc.key := act.pc.batch] else w.outbox)
      && w'.puts == (if out.Bad? && out.sent then w.puts[act.pc.key := act.pc.batch] else w.puts)
    ensures SavedOk(w')
  {
    var act := w.acts[a];
    assert CopyOk(act) && HandleOk(w, act.lease.value) && ActSaved(w, act);
    if out == Good {
      SavedFiled(w, w', a, act.(pc := Marking(act.pc.key, act.pc.batch)));
    } else if out.sent {
      SavedSent(w, w', a, act.(pc := Leaving));
    } else {
      SavedMoved(w, w', a, act.(pc := Leaving));
    }
  }

  /** The batch of `a` is filed under its own key in the outbox. */
  lemma SavedFiled(w: World, w': World, a: Aid, act: Act)
    requires SavedOk(w) && w.kv.Some? && a in w.acts && w.acts[a].pc.Saving? && SameHandle(w, a, act)
    requires act.pc == Marking(w.acts[a].pc.key, w.acts[a].pc.batch) && ActSaved(w, w.acts[a])
    requires w' == w.(acts := w.acts[a := act], outbox := w.outbox[w.acts[a].pc.key := w.acts[a].pc.batch])
    ensures SavedOk(w')
  {
  }

  /** The batch of `a` is on its way there. */
  lemma SavedSent(w: World, w': World, a: Aid, act: Act)
    requires SavedOk(w) && w.kv.Some? && a in w.acts && w.acts[a].pc.Saving? && SameHandle(w, a, act)
    requires act.pc == Leaving && ActSaved(w, w.acts[a])
    requires w' == w.(acts := w.acts[a := act], puts := w.puts[w.acts[a].pc.key := w.acts[a].pc.batch])
    ensures SavedOk(w')
  {
  }

  lemma SavedPublish(w: World, l: Label)
    requires SavedOk(w) && Enabled(w, l) && l.Publish?
    ensures SavedOk(Apply(w, l))
  {
    SavedMoved(w, Apply(w, l), l.a, NextAct(w, l));
  }

  lemma SavedOther(w: World, l: Label)
    requires SavedOk(w) && Enabled(w, l) && (l.Tick? || l.LandPut? || l.LandSend?)
    ensures SavedOk(Apply(w, l))
  {
    if l.LandPut? {
      SavedLandPut(w, l.key);
    } else {
      SavedKept(w, Apply(w, l));
    }
  }

  lemma SavedLandPut(w: World, key: Id)
    requires SavedOk(w) && key in w.puts
    ensures SavedOk(w.(outbox := w.outbox[key := w.puts[key]], puts := w.puts - {key}))
  {
  }

  lemma SavedQuiet(w: World, l: Label)
    requires CopiesOk(w) && SavedOk(w) && Enabled(w, l) && Quiet(l)
    ensures SavedOk(Apply(w, l))
  {
    QuietFrame(w, l);
    QuietSaved(w, l);
    SavedMoved(w, Apply(w, l), Actor(l).value, NextAct(w, l));
  }

  lemma QuietSaved(w: World, l: Label)
    requires CopiesOk(w) && SavedOk(w) && Enabled(w, l) && Quiet(l) && Actor(l).Some?
    ensures var a := Actor(l).value; var act := NextAct(w, l);
      && ActSaved(w, act)
      && (Executing(act.pc) ==> a in w.acts && Executing(w.acts[a].pc) && act.pc.key == w.acts[a].pc.key)
  {
    var a := Actor(l).value;
    if l.Deliver? {
    } else {
      assert CopyOk(w.acts[a]) && ActSaved(w, w.acts[a]);
      if l.Load? { LoadSaved(w, a); } else { PlainSaved(w, l); }
    }
  }

  lemma LoadSaved(w: World, a: Aid)
    requires Enabled(w, Load(a)) && CopyOk(w.acts[a]) && ActSaved(w, w.acts[a])
    ensures ActSaved(w, NextAct(w, Load(a))) && !Executing(NextAct(w, Load(a)).pc)
  {
  }

  lemma PlainSaved(w: World, l: Label)
    requires Enabled(w, l) && Quiet(l) && !l.Load? && !l.Deliver? && Actor(l).Some?
    requires ActSaved(w, w.acts[Actor(l).value])
    ensures var a := Actor(l).value; var act := NextAct(w, l);
      && ActSaved(w, act)
      && (Executing(act.pc) ==> Executing(w.acts[a].pc) && act.pc.key == w.acts[a].pc.key)
  {
  }

  // ---------------------------------------------------------------- PendingOk

  /** The facts a justification rests on survive. */
  ghost predicate Keeps(w: World, w': World) {
    && w'.kv == w.kv && Gained(w, w') && w.now <= w'.now
    && (forall c :: c in w.pub ==> c in w'.pub)
    && (forall id: Id :: id < w.nuid && Virgin(w, id) ==> Virgin(w', id))
  }

  lemma KeptJustified(w: World, w': World, c: Change)
    requires Justified(w, c) && Keeps(w, w') && (c.Start? ==> c.id < w.nuid)
    ensures Justified(w', c)
  {
  }

  lemma PendingKept(w: World, w': World)
    requires IdsBelow(w) && PendingOk(w) && Keeps(w, w') && w'.writes == w.writes
    ensures PendingOk(w')
  {
    forall wr | wr in w'.writes && wr.rev == CurrentRev(w') ensures Justified(w', wr.change) {
      assert WriteBelow(wr, w.nuid);
      KeptJustified(w, w', wr.change);
    }
  }

  lemma PendingStep(w: World, l: Label)
    requires Grounds(w) && PendingOk(w) && Enabled(w, l)
    ensures PendingOk(Apply(w, l))
  {
    if l.Cas? {
      if l.out == Good { PendingGood(w, l.a, l.change); } else { PendingBad(w, l.a, l.change, l.out.sent); }
    } else if l.LandWrite? {
      PendingLand(w, l.w);
    } else {
      PendingKeep(w, l);
    }
  }

  lemma PendingKeep(w: World, l: Label)
    requires IdsBelow(w) && SavedOk(w) && PendingOk(w) && Enabled(w, l) && !l.LandWrite? && !l.Cas?
    ensures PendingOk(Apply(w, l))
  {
    KeepStep(w, l);
    PendingKept(w, Apply(w, l));
  }

  lemma PendingGood(w: World, a: Aid, c: Change)
    requires Fenced(w) && Enabled(w, Cas(a, c, Good))
    ensures PendingOk(Apply(w, Cas(a, c, Good)))
  {
    GoodFrame(w, a, c);
    forall wr | wr in w.writes ensures wr.rev < w.seqNo + 1 {
      assert WriteOk(w, wr);
    }
  }

  lemma PendingLand(w: World, wr0: Write)
    requires Fenced(w) && Enabled(w, LandWrite(wr0))
    ensures PendingOk(Apply(w, LandWrite(wr0)))
  {
    LandFrame(w, wr0);
    forall wr | wr in w.writes ensures wr.rev < w.seqNo + 1 {
      assert WriteOk(w, wr);
    }
  }

  lemma PendingBad(w: World, a: Aid, c: Change, sent: bool)
    requires Grounds(w) && PendingOk(w) && Enabled(w, Cas(a, c, Bad(sent)))
    ensures PendingOk(Apply(w, Cas(a, c, Bad(sent))))
  {
    if Expected(w.acts[a], c) == CurrentRev(w) {
      OfferJustified(w, a, c);
    }
    PendingUnjustified(w, a, c, sent);
  }

  lemma PendingUnjustified(w: World, a: Aid, c: Change, sent: bool)
    requires IdsBelow(w) && PendingOk(w) && Enabled(w, Cas(a, c, Bad(sent)))
    requires Expected(w.acts[a], c) == CurrentRev(w) ==> Justified(w, c)
    ensures PendingOk(Apply(w, Cas(a, c, Bad(sent))))
  {
    var act := w.acts[a];
    var w' := Apply(w, Cas(a, c, Bad(sent)));
    BadFrame(w, a, c, sent);
    KeepsMoved(w, w', a, Lost(act, c));
    if Expected(act, c) == CurrentRev(w) {
      RefusedJustified(w, w', a, c);
    }
    PendingRefused(w, w', Write(a, Expected(act, c), BaseOf(act, c), c, ChangeTime(act, c, w.now)));
  }

  lemma RefusedJustified(w: World, w': World, a: Aid, c: Change)
    requires Justified(w, c) && Keeps(w, w') && a in w.acts && Offers(w.acts[a], c, w.now, w.nuid)
    requires w' == w.(acts := w.acts[a := Lost(w.acts[a], c)], writes := w'.writes, nuid := w'.nuid)
    ensures Justified(w', c)
  {
    if c.Start? {
      LostVirgin(w, w', a, w.acts[a], c.id);
    } else {
      KeptJustified(w, w', c);
    }
  }

  lemma PendingRefused(w: World, w': World, wr: Write)
    requires IdsBelow(w) && PendingOk(w) && Keeps(w, w') && w'.writes <= w.writes + {wr}
    requires wr.rev == CurrentRev(w) ==> Justified(w', wr.change)
    ensures PendingOk(w')
  {
    forall x | x in w'.writes && x.rev == CurrentRev(w') ensures Justified(w', x.change) {
      if x in w.writes {
        assert WriteBelow(x, w.nuid);
        KeptJustified(w, w', x.change);
      }
    }
  }

  lemma LostVirgin(w: World, w': World, a: Aid, act: Act, id: Id)
    requires Virgin(w, id) && a in w.acts && w'.acts == w.acts[a := act.(pc := Leaving)]
    requires w' == w.(acts := w'.acts, writes := w'.writes, nuid := w'.nuid)
    ensures Virgin(w', id)
  {
  }

  lemma KeepsMoved(w: World, w': World, a: Aid, act: Act)
    requires w'.acts == w.acts[a := act]
    requires w' == w.(acts := w'.acts, writes := w'.writes, nuid := w'.nuid, acked := w'.acked, invocations := w'.invocations)
    requires KeyAt(act.pc).Some? ==> (a in w.acts && KeyAt(act.pc) == KeyAt(w.acts[a].pc)) || KeyAt(act.pc).value in w.outbox
    ensures Keeps(w, w')
  {
  }

  lemma KeepStep(w: World, l: Label)
    requires SavedOk(w) && Enabled(w, l) && !l.LandWrite? && !l.Cas?
    ensures Keeps(w, Apply(w, l)) && Apply(w, l).writes == w.writes
  {
    if Quiet(l) {
      KeepQuiet(w, l);
    } else if l.Put? {
      KeepPut(w, l.a, l.out);
    } else if l.Publish? {
      KeepPublish(w, l);
    } else {
      KeepOther(w, l);
    }
  }

  lemma KeepOther(w: World, l: Label)
    requires SavedOk(w) && Enabled(w, l) && (l.Tick? || l.LandPut? || l.LandSend?)
    ensures Keeps(w, Apply(w, l)) && Apply(w, l).writes == w.writes
  {
    if l.LandPut? { KeepLandPut(w, l.key); } else if l.LandSend? { KeepLandSend(w, l.key, l.j, l.dup); }
  }

  lemma KeepLandPut(w: World, key: Id)
    requires SavedOk(w) && Enabled(w, LandPut(key))
    ensures Keeps(w, Apply(w, LandPut(key))) && Apply(w, LandPut(key)).writes == w.writes
  {
  }

  lemma KeepLandSend(w: World, key: Id, j: nat, dup: bool)
    requires Enabled(w, LandSend(key, j, dup))
    ensures Keeps(w, Apply(w, LandSend(key, j, dup))) && Apply(w, LandSend(key, j, dup)).writes == w.writes
  {
  }

  lemma KeepQuiet(w: World, l: Label)
    requires Enabled(w, l) && Quiet(l)
    ensures Keeps(w, Apply(w, l)) && Apply(w, l).writes == w.writes
  {
    QuietFrame(w, l);
    QuietKey(w, l);
    KeepsMoved(w, Apply(w, l), Actor(l).value, NextAct(w, l));
  }

  lemma QuietKey(w: World, l: Label)
    requires Enabled(w, l) && Quiet(l) && Actor(l).Some?
    ensures var a := Actor(l).value; var act := NextAct(w, l);
      KeyAt(act.pc).Some? ==> (a in w.acts && KeyAt(act.pc) == KeyAt(w.acts[a].pc)) || KeyAt(act.pc).value in w.outbox
  {
  }

  lemma KeepPut(w: World, a: Aid, out: Outcome)
    requires SavedOk(w) && Enabled(w, Put(a, out))
    ensures Keeps(w, Apply(w, Put(a, out))) && Apply(w, Put(a, out)).writes == w.writes
  {
    var w' := Apply(w, Put(a, out));
    assert ActSaved(w, w.acts[a]);
    KeepsFiled(w, w', a, NextAct(w, Put(a, out)));
  }

  lemma KeepsFiled(w: World, w': World, a: Aid, act: Act)
    requires a in w.acts && w.acts[a].pc.Saving? && w'.acts == w.acts[a := act]
    requires KeyAt(act.pc).Some? ==> KeyAt(act.pc) == KeyAt(w.acts[a].pc)
    requires w' == w.(acts := w'.acts, outbox := w'.outbox, puts := w'.puts)
    requires w.acts[a].pc.key !in w.outbox
    requires w'.outbox == w.outbox || w'.outbox == w.outbox[w.acts[a].pc.key := w.acts[a].pc.batch]
    requires w'.puts == w.puts || w'.puts == w.puts[w.acts[a].pc.key := w.acts[a].pc.batch]
    ensures Keeps(w, w')
  {
  }

  lemma KeepPublish(w: World, l: Label)
    requires Enabled(w, l) && l.Publish?
    ensures Keeps(w, Apply(w, l)) && Apply(w, l).writes == w.writes
  {
    KeepsSent(w, Apply(w, l), l.a, NextAct(w, l));
  }

  lemma KeepsSent(w: World, w': World, a: Aid, act: Act)
    requires a in w.acts && w.acts[a].pc.Loop? && w'.acts == w.acts[a := act]
    requires KeyAt(act.pc) == KeyAt(w.acts[a].pc)
    requires w' == w.(acts := w'.acts, pub := w'.pub, calls := w'.calls, sends := w'.sends)
    requires w'.pub == w.pub || w'.pub == w.pub + [Copy(w.acts[a].pc.key, w.acts[a].pc.i)]
    requires w'.calls.Keys == w.calls.Keys + {w.acts[a].pc.key}
    requires w'.sends.Keys <= w.sends.Keys + {w.acts[a].pc.key}
    ensures Keeps(w, w')
  {
  }
}
