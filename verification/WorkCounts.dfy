/** Publish calls, copies, handler calls and publication passes stay within what the record has paid for. */
module WorkCounts {
  import opened Wrappers
  import opened Work
  import opened WorkInvariant
  import opened WorkFrames
  import opened WorkRecord
  import opened WorkStream

  // ---------------------------------------------------------------- counting activations

  lemma AgreeExceptAt(s: set<Aid>, s': set<Aid>, a: Aid)
    requires forall b :: b != a ==> (b in s <==> b in s')
    ensures |s'| + (if a in s then 1 else 0) == |s| + (if a in s' then 1 else 0)
  {
    assert s - {a} == s' - {a};
    assert a in s ==> s == (s - {a}) + {a};
    assert a in s' ==> s' == (s' - {a}) + {a};
  }

  lemma ReadyMoved(w: World, w': World, a: Aid, act: Act, key: Id)
    requires w'.acts == w.acts[a := act]
    ensures |Ready(w', key)| + (if a in w.acts && WillPublish(w.acts[a], key) then 1 else 0)
         == |Ready(w, key)| + (if WillPublish(act, key) then 1 else 0)
  {
    AgreeExceptAt(Ready(w, key), Ready(w', key), a);
  }

  lemma ArmedMoved(w: World, w': World, a: Aid, act: Act)
    requires w'.acts == w.acts[a := act]
    ensures |ArmedActs(w')| + (if a in w.acts && w.acts[a].pc.Armed? then 1 else 0)
         == |ArmedActs(w)| + (if act.pc.Armed? then 1 else 0)
  {
    AgreeExceptAt(ArmedActs(w), ArmedActs(w'), a);
  }

  lemma CopiesAppend(pub: seq<Copy>, x: Copy, key: Id)
    ensures Copies(pub + [x], key) == Copies(pub, key) + (if x.key == key then 1 else 0)
  {
    assert (pub + [x])[..|pub|] == pub;
  }

  // ---------------------------------------------------------------- publish calls

  /** Writing `c` pays for one more publish call of batch `key`. */
  predicate Pays(w: World, c: Change, key: Id) {
    && Current(w, key)
    && (c.Pass? || (c.Advance? && key in w.outbox && c.i + 1 < |w.outbox[key].events|))
  }

  lemma ChangedCap(w: World, w': World, c: Change, at: nat, key: Id)
    requires CallsOk(w) && TaskOk(w) && SavedOk(w) && Justified(w, c)
    requires w'.kv.Some? && w'.kv.value.task == Changed(TaskOf(w), c, at) && w'.outbox == w.outbox
    ensures Calls(w, key) + |Ready(w, key)| + (if Pays(w, c, key) then 1 else 0) <= Cap(w', key)
  {
    assert Calls(w, key) + |Ready(w, key)| <= Cap(w, key);
    if c.Start? && c.id == key {
      assert Ready(w, key) == {};
    }
  }

  /** After its write, the activation may publish only what the write paid for. */
  lemma WonPays(w: World, a: Aid, c: Change, key: Id)
    requires CopiesOk(w) && SavedOk(w) && a in w.acts && Offers(w.acts[a], c, w.now, w.nuid)
    requires BaseOf(w.acts[a], c) == TaskOf(w)
    requires WillPublish(Won(w.acts[a], c, w.now, w.seqNo + 1), key)
    ensures WillPublish(w.acts[a], key) || Pays(w, c, key)
  {
    assert CopyOk(w.acts[a]) && ActSaved(w, w.acts[a]);
  }

  lemma CallsGood(w: World, a: Aid, c: Change)
    requires Grounds(w) && CallsOk(w) && Enabled(w, Cas(a, c, Good))
    ensures CallsOk(Apply(w, Cas(a, c, Good)))
  {
    OfferJustified(w, a, c);
    CallsWrites(w, a, c);
  }

  lemma CallsWrites(w: World, a: Aid, c: Change)
    requires CallsOk(w) && TaskOk(w) && CopiesOk(w) && SavedOk(w) && Enabled(w, Cas(a, c, Good))
    requires Justified(w, c) && BaseOf(w.acts[a], c) == TaskOf(w)
    ensures CallsOk(Apply(w, Cas(a, c, Good)))
  {
    GoodFrame(w, a, c);
    CallsWrote(w, Apply(w, Cas(a, c, Good)), a, c);
  }

  lemma CallsWrote(w: World, w': World, a: Aid, c: Change)
    requires CallsOk(w) && TaskOk(w) && CopiesOk(w) && SavedOk(w) && Justified(w, c)
    requires a in w.acts && Offers(w.acts[a], c, w.now, w.nuid) && BaseOf(w.acts[a], c) == TaskOf(w)
    requires var act := Won(w.acts[a], c, w.now, w.seqNo + 1);
      Wrote(w, w', a, act, Changed(TaskOf(w), c, ChangeTime(w.acts[a], c, w.now)))
    ensures CallsOk(w')
  {
    var act := Won(w.acts[a], c, w.now, w.seqNo + 1);
    forall key: Id ensures Calls(w', key) + |Ready(w', key)| <= Cap(w', key) {
      ChangedCap(w, w', c, ChangeTime(w.acts[a], c, w.now), key);
      ReadyMoved(w, w', a, act, key);
      if WillPublish(act, key) { WonPays(w, a, c, key); }
    }
    CopiesSame(w, w');
  }

  lemma CopiesSame(w: World, w': World)
    requires CallsOk(w) && w'.pub == w.pub && w'.sends == w.sends && w'.calls == w.calls
    ensures forall key: Id :: Copies(w'.pub, key) + |Sends(w', key)| <= Calls(w', key)
  {
    forall key: Id ensures Copies(w'.pub, key) + |Sends(w', key)| <= Calls(w', key) {
      assert Copies(w.pub, key) + |Sends(w, key)| <= Calls(w, key);
    }
  }

  lemma CallsLand(w: World, wr: Write)
    requires Fenced(w) && CallsOk(w) && TaskOk(w) && SavedOk(w) && PendingOk(w) && Enabled(w, LandWrite(wr))
    ensures CallsOk(Apply(w, LandWrite(wr)))
  {
    var w' := Apply(w, LandWrite(wr));
    LandFrame(w, wr);
    assert WriteOk(w, wr);
    forall key: Id ensures Calls(w', key) + |Ready(w', key)| <= Cap(w', key) {
      ChangedCap(w, w', wr.change, wr.at, key);
      assert Ready(w', key) == Ready(w, key);
    }
    CopiesSame(w, w');
  }

  lemma CallsPublish(w: World, a: Aid, dup: bool, out: Outcome)
    requires CallsOk(w) && Enabled(w, Publish(a, dup, out))
    ensures CallsOk(Apply(w, Publish(a, dup, out)))
  {
    PublishFrame(w, a, dup, out);
    CallsSent(w, Apply(w, Publish(a, dup, out)), a, Apply(w, Publish(a, dup, out)).acts[a]);
  }

  /** One more call; the copy is on the stream, in flight, dropped or lost. */
  lemma CallsSent(w: World, w': World, a: Aid, act: Act)
    requires CallsOk(w) && a in w.acts && w'.acts == w.acts[a := act] && !act.pc.Loop?
    requires w.acts[a].pc.Loop? && WillPublish(w.acts[a], w.acts[a].pc.key)
    requires w'.kv == w.kv && w'.outbox == w.outbox
    requires var pc := w.acts[a].pc;
      && w'.calls == w.calls[pc.key := Calls(w, pc.key) + 1]
      && (|| (w'.pub == w.pub && w'.sends == w.sends)
          || (w'.pub == w.pub + [Copy(pc.key, pc.i)] && w'.sends == w.sends)
          || (w'.pub == w.pub && w'.sends == w.sends[pc.key := Sends(w, pc.key) + [pc.i]]))
    ensures CallsOk(w')
  {
    var x := Copy(w.acts[a].pc.key, w.acts[a].pc.i);
    forall key: Id
      ensures Calls(w', key) + |Ready(w', key)| <= Cap(w', key)
      ensures Copies(w'.pub, key) + |Sends(w', key)| <= Calls(w', key)
    {
      assert Calls(w, key) + |Ready(w, key)| <= Cap(w, key);
      assert Copies(w.pub, key) + |Sends(w, key)| <= Calls(w, key);
      ReadyMoved(w, w', a, act, key);
      CopiesAppend(w.pub, x, key);
    }
  }

  lemma CallsLandSend(w: World, key0: Id, j: nat, dup: bool)
    requires CallsOk(w) && Enabled(w, LandSend(key0, j, dup))
    ensures CallsOk(Apply(w, LandSend(key0, j, dup)))
  {
    var x := Copy(key0, w.sends[key0][j]);
    CallsArrived(w, Apply(w, LandSend(key0, j, dup)), key0, Removed(w.sends[key0], j), x);
  }

  /** A send in flight became a copy, or was dropped. */
  lemma CallsArrived(w: World, w': World, key0: Id, left: seq<nat>, x: Copy)
    requires CallsOk(w) && key0 in w.sends && |left| + 1 == |w.sends[key0]| && x.key == key0
    requires w'.sends == w.sends[key0 := left] && (w'.pub == w.pub || w'.pub == w.pub + [x])
    requires w'.kv == w.kv && w'.outbox == w.outbox && w'.acts == w.acts && w'.calls == w.calls
    ensures CallsOk(w')
  {
    forall key: Id ensures Calls(w', key) + |Ready(w', key)| <= Cap(w', key) {
      assert Calls(w, key) + |Ready(w, key)| <= Cap(w, key);
      assert Ready(w', key) == Ready(w, key);
    }
    forall key: Id ensures Copies(w'.pub, key) + |Sends(w', key)| <= Calls(w', key) {
      assert Copies(w.pub, key) + |Sends(w, key)| <= Calls(w, key);
      ArrivedCopies(w, w', key0, left, x, key);
    }
  }

  lemma ArrivedCopies(w: World, w': World, key0: Id, left: seq<nat>, x: Copy, key: Id)
    requires key0 in w.sends && |left| + 1 == |w.sends[key0]| && x.key == key0
    requires w'.sends == w.sends[key0 := left] && (w'.pub == w.pub || w'.pub == w.pub + [x])
    ensures Copies(w'.pub, key) + |Sends(w', key)| <= Copies(w.pub, key) + |Sends(w, key)|
  {
    CopiesAppend(w.pub, x, key);
    if key != key0 { assert Sends(w', key) == Sends(w, key); }
  }

  /** Nothing about publishing changed except that the outbox may have gained a key. */
  lemma CallsKept(w: World, w': World)
    requires CallsOk(w) && TaskOk(w) && Gained(w, w') && w'.kv == w.kv && (w.kv.None? ==> w'.outbox == w.outbox)
    requires w'.pub == w.pub && w'.sends == w.sends && w'.calls == w.calls
    requires forall key: Id :: |Ready(w', key)| <= |Ready(w, key)|
    ensures CallsOk(w')
  {
    forall key: Id ensures Calls(w', key) + |Ready(w', key)| <= Cap(w', key) {
      assert Calls(w, key) + |Ready(w, key)| <= Cap(w, key);
      assert |Ready(w', key)| <= |Ready(w, key)|;
    }
    CopiesSame(w, w');
  }

  lemma ReadyFewer(w: World, w': World, a: Aid, act: Act)
    requires w'.acts == w.acts[a := act]
    requires act.pc.Loop? ==> a in w.acts && act.pc == w.acts[a].pc
    ensures forall key: Id :: |Ready(w', key)| <= |Ready(w, key)|
  {
    forall key: Id ensures |Ready(w', key)| <= |Ready(w, key)| {
      ReadyMoved(w, w', a, act, key);
    }
  }

  lemma CallsBad(w: World, a: Aid, c: Change, sent: bool)
    requires CallsOk(w) && TaskOk(w) && Enabled(w, Cas(a, c, Bad(sent)))
    ensures CallsOk(Apply(w, Cas(a, c, Bad(sent))))
  {
    var w' := Apply(w, Cas(a, c, Bad(sent)));
    BadFrame(w, a, c, sent);
    ReadyFewer(w, w', a, Lost(w.acts[a], c));
    CallsKept(w, w');
  }

  lemma CallsPut(w: World, a: Aid, out: Outcome)
    requires Fenced(w) && CopiesOk(w) && SavedOk(w) && CallsOk(w) && TaskOk(w) && Enabled(w, Put(a, out))
    ensures CallsOk(Apply(w, Put(a, out)))
  {
    assert CopyOk(w.acts[a]) && HandleOk(w, w.acts[a].lease.value);
    GainPut(w, a, out);
    PutFrame(w, a, out);
    CallsStored(w, Apply(w, Put(a, out)), a, Apply(w, Put(a, out)).acts[a]);
  }

  lemma CallsStored(w: World, w': World, a: Aid, act: Act)
    requires CallsOk(w) && TaskOk(w) && Gained(w, w') && w.kv.Some? && w'.acts == w.acts[a := act] && !act.pc.Loop?
    requires w' == w.(acts := w'.acts, outbox := w'.outbox, puts := w'.puts)
    ensures CallsOk(w')
  {
    ReadyFewer(w, w', a, act);
    CallsKept(w, w');
  }

  lemma CallsOther(w: World, l: Label)
    requires SavedOk(w) && CallsOk(w) && TaskOk(w) && Enabled(w, l) && (l.Tick? || l.LandPut?)
    ensures CallsOk(Apply(w, l))
  {
    var w' := Apply(w, l);
    GainStep(w, l);
    forall key: Id ensures Ready(w', key) == Ready(w, key) {}
    CallsKept(w, w');
  }

  lemma CallsQuiet(w: World, l: Label)
    requires CallsOk(w) && TaskOk(w) && Enabled(w, l) && Quiet(l)
    ensures CallsOk(Apply(w, l))
  {
    var w' := Apply(w, l);
    QuietFrame(w, l);
    QuietStill(w, l);
    ReadyFewer(w, w', Actor(l).value, NextAct(w, l));
    CallsKept(w, w');
  }

  lemma CallsStep(w: World, l: Label)
    requires Grounds(w) && PendingOk(w) && CallsOk(w) && Enabled(w, l)
    ensures CallsOk(Apply(w, l))
  {
    if l.Cas? {
      if l.out == Good { CallsGood(w, l.a, l.change); } else { CallsBad(w, l.a, l.change, l.out.sent); }
    } else if Quiet(l) {
      CallsQuiet(w, l);
    } else if l.LandWrite? {
      CallsLand(w, l.w);
    } else if l.Put? {
      CallsPut(w, l.a, l.out);
    } else if l.Publish? {
      CallsPublish(w, l.a, l.dup, l.out);
    } else if l.LandSend? {
      CallsLandSend(w, l.key, l.j, l.dup);
    } else {
      CallsOther(w, l);
    }
  }

  // ---------------------------------------------------------------- executions and passes

  predicate PassesOk(passes: nat, t: Task) {
    if t.attempts == 0 then passes == 0
    else passes <= (t.attempts - 1) * t.maxPublishAttempts + t.publishAttempts
  }

  lemma ChangedPasses(passes: nat, t: Task, c: Change, at: nat)
    requires Sound(t) && PassesOk(passes, t) && (c.Pass? ==> t.attempts >= 1)
    ensures PassesOk(passes + (if c.Pass? then 1 else 0), Changed(Some(t), c, at))
  {
    if c.Start? && t.attempts > 0 {
      assert t.attempts * t.maxPublishAttempts == (t.attempts - 1) * t.maxPublishAttempts + t.maxPublishAttempts;
    }
  }

  lemma ChangedBudget(w: World, w': World, c: Change, at: nat)
    requires BudgetOk(w) && TaskOk(w) && Justified(w, c)
    requires w'.kv.Some? && w'.kv.value.task == Changed(TaskOf(w), c, at)
    requires w'.invocations == w.invocations && w'.passes == w.passes + (if c.Pass? then 1 else 0)
    requires |ArmedActs(w')| <= |ArmedActs(w)| + (if c.Start? then 1 else 0)
    ensures BudgetOk(w')
  {
    if w.kv.Some? {
      ChangedPasses(w.passes, w.kv.value.task, c, at);
    }
  }

  lemma BudgetWrote(w: World, w': World, a: Aid, act: Act, c: Change, at: nat)
    requires BudgetOk(w) && TaskOk(w) && Justified(w, c) && a in w.acts && w'.acts == w.acts[a := act]
    requires w'.kv.Some? && w'.kv.value.task == Changed(TaskOf(w), c, at)
    requires w'.invocations == w.invocations && w'.passes == w.passes + (if c.Pass? then 1 else 0)
    requires act.pc.Armed? ==> c.Start? || w.acts[a].pc.Armed?
    ensures BudgetOk(w')
  {
    ArmedMoved(w, w', a, act);
    ChangedBudget(w, w', c, at);
  }

  lemma WonArmed(act: Act, c: Change, now: nat, nuid: Id, rev: nat)
    requires Offers(act, c, now, nuid) && (BaseOf(act, c).Some? || c.Claim?)
    ensures Won(act, c, now, rev).pc.Armed? ==> c.Start? || act.pc.Armed?
  {
  }

  lemma BudgetGood(w: World, a: Aid, c: Change)
    requires Grounds(w) && BudgetOk(w) && Enabled(w, Cas(a, c, Good))
    ensures BudgetOk(Apply(w, Cas(a, c, Good)))
  {
    OfferJustified(w, a, c);
    GoodFrame(w, a, c);
    WonArmed(w.acts[a], c, w.now, w.nuid, w.seqNo + 1);
    BudgetWrote(w, Apply(w, Cas(a, c, Good)), a, Won(w.acts[a], c, w.now, w.seqNo + 1), c, ChangeTime(w.acts[a], c, w.now));
  }

  lemma BudgetLand(w: World, wr: Write)
    requires Fenced(w) && TaskOk(w) && PendingOk(w) && BudgetOk(w) && Enabled(w, LandWrite(wr))
    ensures BudgetOk(Apply(w, LandWrite(wr)))
  {
    var w' := Apply(w, LandWrite(wr));
    LandFrame(w, wr);
    assert WriteOk(w, wr);
    assert ArmedActs(w') == ArmedActs(w);
    ChangedBudget(w, w', wr.change, wr.at);
  }

  lemma BudgetMoved(w: World, w': World, a: Aid, act: Act)
    requires BudgetOk(w) && w'.acts == w.acts[a := act] && w'.kv == w.kv && w'.passes == w.passes
    requires act.pc.Armed? ==> a in w.acts && w.acts[a].pc.Armed? && w'.invocations == w.invocations
    requires w'.invocations == w.invocations || (w'.invocations == w.invocations + 1 && a in w.acts && w.acts[a].pc.Armed?)
    ensures BudgetOk(w')
  {
    ArmedMoved(w, w', a, act);
  }

  lemma BudgetBad(w: World, a: Aid, c: Change, sent: bool)
    requires BudgetOk(w) && Enabled(w, Cas(a, c, Bad(sent)))
    ensures BudgetOk(Apply(w, Cas(a, c, Bad(sent))))
  {
    BadFrame(w, a, c, sent);
    BudgetMoved(w, Apply(w, Cas(a, c, Bad(sent))), a, Lost(w.acts[a], c));
  }

  lemma BudgetStore(w: World, l: Label)
    requires BudgetOk(w) && Enabled(w, l) && (l.Put? || l.Publish?)
    ensures BudgetOk(Apply(w, l))
  {
    BudgetMoved(w, Apply(w, l), Actor(l).value, NextAct(w, l));
  }

  lemma BudgetQuiet(w: World, l: Label)
    requires BudgetOk(w) && Enabled(w, l) && Quiet(l)
    ensures BudgetOk(Apply(w, l))
  {
    QuietFrame(w, l);
    QuietStill(w, l);
    BudgetMoved(w, Apply(w, l), Actor(l).value, NextAct(w, l));
  }

  lemma BudgetOther(w: World, l: Label)
    requires BudgetOk(w) && Enabled(w, l) && (l.Tick? || l.LandPut? || l.LandSend?)
    ensures BudgetOk(Apply(w, l))
  {
    assert ArmedActs(Apply(w, l)) == ArmedActs(w);
  }

  lemma BudgetStep(w: World, l: Label)
    requires Grounds(w) && PendingOk(w) && BudgetOk(w) && Enabled(w, l)
    ensures BudgetOk(Apply(w, l))
  {
    if l.Cas? {
      if l.out == Good { BudgetGood(w, l.a, l.change); } else { BudgetBad(w, l.a, l.change, l.out.sent); }
    } else if Quiet(l) {
      BudgetQuiet(w, l);
    } else if l.LandWrite? {
      BudgetLand(w, l.w);
    } else if l.Put? || l.Publish? {
      BudgetStore(w, l);
    } else {
      BudgetOther(w, l);
    }
  }
}
