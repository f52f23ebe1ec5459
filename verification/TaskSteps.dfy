/** What one step of a task's protocol does to the parts of the world that other tasks, readers of the
    stream and the coverage report can see. */
module TaskSteps {
  import opened Events
  import opened Work
  import opened WorkInvariant
  import opened WorkFrames
  import opened WorkTheorems

  /** Clocks and counters only grow, and the record only changes at a new revision. */
  predicate Later(w: World, w': World) {
    w.now <= w'.now && w.nuid <= w'.nuid && w.seqNo <= w'.seqNo && (w'.seqNo == w.seqNo ==> w'.kv == w.kv)
  }

  lemma LaterStep(w: World, l: Label)
    requires Enabled(w, l)
    ensures Later(w, Apply(w, l))
    ensures !l.Tick? ==> Apply(w, l).now == w.now
  {
    if l.Cas? {
      if l.out == Good { GoodFrame(w, l.a, l.change); } else { BadFrame(w, l.a, l.change, l.out.sent); }
    } else if l.LandWrite? {
      LandFrame(w, l.w);
    } else if Quiet(l) {
      QuietFrame(w, l);
    }
  }

  /** The copies this step put on the stream. */
  function NewCopies(w: World, w': World): seq<Copy> {
    if |w.pub| <= |w'.pub| then w'.pub[|w.pub|..] else []
  }

  lemma PubStep(w: World, l: Label)
    requires Enabled(w, l)
    ensures var added := NewCopies(w, Apply(w, l)); Apply(w, l).pub == w.pub + added && |added| <= 1
  {
    if l.Cas? {
      if l.out == Good { GoodFrame(w, l.a, l.change); } else { BadFrame(w, l.a, l.change, l.out.sent); }
    } else if l.LandWrite? {
      LandFrame(w, l.w);
    } else if Quiet(l) {
      QuietFrame(w, l);
    }
  }

  /** Deliveries are never forgotten, and keep their message. */
  predicate SameInput(act: Act, act': Act) {
    act'.msg == act.msg && act'.cfg == act.cfg && act'.ev == act.ev
  }

  ghost predicate Remembered(w: World, w': World) {
    forall a :: a in w.acts ==> a in w'.acts && SameInput(w.acts[a], w'.acts[a])
  }

  lemma RememberedStep(w: World, l: Label)
    requires Enabled(w, l)
    ensures Remembered(w, Apply(w, l))
    ensures forall a :: a in Apply(w, l).acts && a !in w.acts ==>
      l.Deliver? && l.a == a && var act := Apply(w, l).acts[a]; act.msg == l.msg && act.cfg == l.cfg && act.ev == l.ev
  {
    if l.Cas? {
      RememberedCas(w, l.a, l.change, l.out);
    } else if l.LandWrite? {
      LandFrame(w, l.w);
    } else if Quiet(l) {
      QuietFrame(w, l);
      NextInput(w, l);
    } else if l.Put? || l.Publish? {
      NextInput(w, l);
    }
  }

  lemma RememberedCas(w: World, a: Aid, c: Change, out: Outcome)
    requires Enabled(w, Cas(a, c, out))
    ensures Remembered(w, Apply(w, Cas(a, c, out))) && Apply(w, Cas(a, c, out)).acts.Keys == w.acts.Keys
  {
    if out == Good {
      GoodFrame(w, a, c);
      WonInput(w.acts[a], c, w.now, w.seqNo + 1);
      OneMoved(w, Apply(w, Cas(a, c, out)), a, Won(w.acts[a], c, w.now, w.seqNo + 1));
    } else {
      BadFrame(w, a, c, out.sent);
      OneMoved(w, Apply(w, Cas(a, c, out)), a, Lost(w.acts[a], c));
    }
  }

  lemma WonInput(act: Act, c: Change, now: nat, rev: nat)
    requires BaseOf(act, c).Some? || c.Claim?
    ensures SameInput(act, Won(act, c, now, rev))
  {
  }

  lemma OneMoved(w: World, w': World, a: Aid, act: Act)
    requires a in w.acts && w'.acts == w.acts[a := act] && SameInput(w.acts[a], act)
    ensures Remembered(w, w') && w'.acts.Keys == w.acts.Keys
  {
  }

  lemma NextInput(w: World, l: Label)
    requires Enabled(w, l) && Actor(l).Some? && !l.Cas?
    ensures var act := NextAct(w, l);
      if l.Deliver? then act.msg == l.msg && act.cfg == l.cfg && act.ev == l.ev
      else Actor(l).value in w.acts && SameInput(w.acts[Actor(l).value], act)
  {
  }

  // ---------------------------------------------------------------- the scope of saved outputs

  /** Every output of the batch carries the scope of some delivered input. */
  ghost predicate FromInput(w: World, batch: Batch) {
    forall out :: out in batch.events ==> exists a :: a in w.acts && Scope(out) == Scope(w.acts[a].ev)
  }

  ghost predicate ScopesOk(w: World) {
    && (forall key :: key in w.outbox ==> FromInput(w, w.outbox[key]))
    && (forall key :: key in w.puts ==> FromInput(w, w.puts[key]))
    && (forall a :: a in w.acts && w.acts[a].pc.Saving? ==> FromInput(w, w.acts[a].pc.batch))
  }

  /** A handler that sets no scope of its own. */
  predicate KeepsScope(w: World, l: Label) {
    l.Return? && l.a in w.acts ==> forall out :: out in l.batch.events ==> Scope(out) == Scope(w.acts[l.a].ev)
  }

  lemma FromInputStays(w: World, w': World, batch: Batch)
    requires FromInput(w, batch) && Remembered(w, w')
    ensures FromInput(w', batch)
  {
    forall out | out in batch.events ensures exists a :: a in w'.acts && Scope(out) == Scope(w'.acts[a].ev) {
      var a :| a in w.acts && Scope(out) == Scope(w.acts[a].ev);
      assert a in w'.acts;
    }
  }

  /** Where the batches of the next world come from. */
  ghost predicate BatchesFrom(w: World, w': World, extra: set<Batch>) {
    && (forall key :: key in w'.outbox ==>
          (key in w.outbox && w'.outbox[key] == w.outbox[key]) || (key in w.puts && w'.outbox[key] == w.puts[key]) || w'.outbox[key] in extra)
    && (forall key :: key in w'.puts ==> (key in w.puts && w'.puts[key] == w.puts[key]) || w'.puts[key] in extra)
    && (forall a :: a in w'.acts && w'.acts[a].pc.Saving? ==> (a in w.acts && w'.acts[a].pc == w.acts[a].pc) || w'.acts[a].pc.batch in extra)
  }

  function Extra(w: World, l: Label): set<Batch> {
    if l.Return? then {l.batch}
    else if l.Put? && l.a in w.acts && w.acts[l.a].pc.Saving? then {w.acts[l.a].pc.batch}
    else {}
  }

  lemma BatchesStep(w: World, l: Label)
    requires Enabled(w, l)
    ensures BatchesFrom(w, Apply(w, l), Extra(w, l))
  {
    if l.Cas? {
      BatchesCas(w, l.a, l.change, l.out);
    } else if l.LandWrite? {
      LandFrame(w, l.w);
    } else if Quiet(l) {
      QuietFrame(w, l);
      SavingNext(w, l);
    } else if l.Put? {
      BatchesPut(w, l.a, l.out);
    } else {
      BatchesElse(w, l);
    }
  }

  lemma BatchesCas(w: World, a: Aid, c: Change, out: Outcome)
    requires Enabled(w, Cas(a, c, out))
    ensures BatchesFrom(w, Apply(w, Cas(a, c, out)), {})
  {
    if out == Good {
      GoodFrame(w, a, c);
      NoSavingWon(w, a, c);
    } else {
      BadFrame(w, a, c, out.sent);
    }
  }

  lemma BatchesPut(w: World, a: Aid, out: Outcome)
    requires Enabled(w, Put(a, out))
    ensures BatchesFrom(w, Apply(w, Put(a, out)), {w.acts[a].pc.batch})
  {
  }

  lemma BatchesElse(w: World, l: Label)
    requires Enabled(w, l) && (l.Tick? || l.Publish? || l.LandPut? || l.LandSend?)
    ensures BatchesFrom(w, Apply(w, l), {})
  {
  }

  lemma NoSavingWon(w: World, a: Aid, c: Change)
    requires Enabled(w, Cas(a, c, Good))
    ensures var pc := Won(w.acts[a], c, w.now, w.seqNo + 1).pc; pc.Saving? ==> pc == w.acts[a].pc
  {
  }

  lemma SavingNext(w: World, l: Label)
    requires Enabled(w, l) && Quiet(l) && Actor(l).Some?
    ensures NextAct(w, l).pc.Saving? ==> l.Return? && NextAct(w, l).pc.batch == l.batch
  {
  }

  lemma ScopesMoved(w: World, w': World, extra: set<Batch>)
    requires ScopesOk(w) && Remembered(w, w') && BatchesFrom(w, w', extra)
    requires forall batch :: batch in extra ==> FromInput(w, batch)
    ensures ScopesOk(w')
  {
    forall batch | FromInput(w, batch) ensures FromInput(w', batch) {
      FromInputStays(w, w', batch);
    }
  }

  lemma ScopesStep(w: World, l: Label)
    requires ScopesOk(w) && Enabled(w, l) && KeepsScope(w, l)
    ensures ScopesOk(Apply(w, l))
  {
    RememberedStep(w, l);
    BatchesStep(w, l);
    forall batch | batch in Extra(w, l) ensures FromInput(w, batch) {}
    ScopesMoved(w, Apply(w, l), Extra(w, l));
  }

  // ---------------------------------------------------------------- one step, seen from outside

  /** The world is what some run of the protocol leads to. */
  ghost predicate Reached(w: World) {
    exists ls :: Runs(INITIAL, ls) && Final(INITIAL, ls) == w
  }

  lemma ReachedInv(w: World)
    requires Reached(w)
    ensures Inv(w)
  {
    var ls :| Runs(INITIAL, ls) && Final(INITIAL, ls) == w;
    EveryRun(ls);
  }

  lemma ReachedStep(w: World, l: Label)
    requires Reached(w) && Enabled(w, l)
    ensures Reached(Apply(w, l))
  {
    var ls :| Runs(INITIAL, ls) && Final(INITIAL, ls) == w;
    RunSnoc(INITIAL, ls, l);
  }

  predicate Kept(w: World, w': World) {
    forall key :: key in w.outbox ==> key in w'.outbox && w'.outbox[key] == w.outbox[key]
  }

  predicate Saved(w: World, copy: Copy) {
    copy.key in w.outbox && copy.index < |w.outbox[copy.key].events|
  }

  /** Where the deliveries of the next world come from. */
  ghost predicate Delivered(w: World, w': World, l: Label) {
    forall a :: a in w'.acts ==>
      || (a in w.acts && SameInput(w.acts[a], w'.acts[a]))
      || (l.Deliver? && w'.acts[a].msg == l.msg && w'.acts[a].cfg == l.cfg && w'.acts[a].ev == l.ev)
  }

  ghost predicate Advanced(w: World, w': World, l: Label) {
    && Reached(w') && Later(w, w') && Kept(w, w') && Delivered(w, w', l)
    && w'.pub == w.pub + NewCopies(w, w')
    && forall copy :: copy in NewCopies(w, w') ==> Saved(w', copy)
  }

  lemma KeptStep(w: World, l: Label)
    requires Reached(w) && Enabled(w, l)
    ensures Kept(w, Apply(w, l))
  {
    ReachedInv(w);
    OutboxStep(w, l);
  }

  lemma SavedCopies(w: World)
    requires Reached(w)
    ensures forall copy :: copy in w.pub ==> Saved(w, copy)
  {
    ReachedInv(w);
    forall copy | copy in w.pub ensures Saved(w, copy) { assert CopyFits(w, copy); }
  }

  lemma AdvancedStep(w: World, l: Label)
    requires Reached(w) && Enabled(w, l)
    ensures Advanced(w, Apply(w, l), l)
  {
    LaterStep(w, l);
    KeptStep(w, l);
    RememberedStep(w, l);
    PubStep(w, l);
    ReachedStep(w, l);
    SavedCopies(Apply(w, l));
  }

  function CaughtUp(w: World, now: nat, nuid: Id, seqNo: nat): World {
    w.(now := now, nuid := nuid, seqNo := seqNo)
  }

  /** A task that does nothing while the clock and the counters advance. */
  lemma IdleStep(w: World, now: nat, nuid: Id, seqNo: nat)
    requires Reached(w) && ScopesOk(w) && w.now <= now && w.nuid <= nuid && w.seqNo <= seqNo
    ensures Reached(CaughtUp(w, now, nuid, seqNo)) && ScopesOk(CaughtUp(w, now, nuid, seqNo))
  {
    var l := Tick(now, nuid, seqNo);
    ReachedStep(w, l);
    ScopesStep(w, l);
    assert CaughtUp(w, now, nuid, seqNo) == Apply(w, l);
  }

  lemma InitialReached()
    ensures Reached(INITIAL) && ScopesOk(INITIAL)
  {
    assert Runs(INITIAL, []) && Final(INITIAL, []) == INITIAL;
  }
}
