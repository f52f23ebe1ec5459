/** What each kind of step leaves alone: the frames every invariant proof starts from. */
module WorkFrames {
  import opened Wrappers
  import opened Work

  /** Steps that move one activation and nothing in the stores. */
  predicate Quiet(l: Label) {
    l.Deliver? || l.Get? || l.Decline? || l.Load? || l.Judge? || l.Call? || l.Return? || l.Ack? || l.Stop?
  }

  /** Only activation `a` moved; `acked` and the handler count may have grown. */
  predicate Moved(w: World, w': World, a: Aid, act: Act) {
    w' == w.(acts := w.acts[a := act], acked := w'.acked, invocations := w'.invocations)
  }

  /** Activation `a` wrote `t`. */
  predicate Wrote(w: World, w': World, a: Aid, act: Act, t: Task) {
    && w' == w.(kv := Some(Record(t, w.seqNo + 1)), seqNo := w.seqNo + 1, acts := w.acts[a := act],
                nuid := w'.nuid, passes := w'.passes)
    && act.lease == Some(Lease(t, w.seqNo + 1))
    && w.nuid <= w'.nuid
  }

  /** A write in flight took effect. */
  predicate Landed(w: World, w': World, t: Task) {
    && w' == w.(kv := Some(Record(t, w.seqNo + 1)), seqNo := w.seqNo + 1, writes := w'.writes, passes := w'.passes)
    && w'.writes <= w.writes
  }

  /** A write whose caller saw an error. */
  predicate Refused(w: World, w': World, a: Aid, act: Act, wr: Write) {
    && w' == w.(acts := w.acts[a := act], writes := w'.writes, nuid := w'.nuid)
    && w'.writes <= w.writes + {wr}
    && w.nuid <= w'.nuid
  }

  lemma QuietFrame(w: World, l: Label)
    requires Enabled(w, l) && Quiet(l)
    ensures Actor(l).Some?
    ensures Moved(w, Apply(w, l), Actor(l).value, NextAct(w, l))
    ensures !l.Ack? ==> Apply(w, l).acked == w.acked
    ensures !l.Call? ==> Apply(w, l).invocations == w.invocations
  {
  }

  /** What no step but a successful write can do to an activation. */
  predicate SameHandle(w: World, a: Aid, act: Act) {
    if a in w.acts
    then act.lease == w.acts[a].lease && act.me == w.acts[a].me && act.cfg == w.acts[a].cfg && act.msg == w.acts[a].msg
    else act.lease.None? && act.me.None? && act.pc == Delivered
  }

  lemma QuietHandle(w: World, l: Label)
    requires Enabled(w, l) && Quiet(l)
    ensures SameHandle(w, Actor(l).value, NextAct(w, l))
    ensures NextAct(w, l).pc.Seen? ==> NextAct(w, l).pc == Seen(w.kv, w.now)
    ensures Actor(l).value in w.acts <==> !l.Deliver?
  {
  }

  lemma StoreHandle(w: World, l: Label)
    requires Enabled(w, l) && (l.Put? || l.Publish?)
    ensures SameHandle(w, Actor(l).value, NextAct(w, l)) && Actor(l).value in w.acts
    ensures !NextAct(w, l).pc.Seen?
  {
  }

  lemma GoodFrame(w: World, a: Aid, c: Change)
    requires Enabled(w, Cas(a, c, Good))
    ensures var at := ChangeTime(w.acts[a], c, w.now);
            Wrote(w, Apply(w, Cas(a, c, Good)), a, Won(w.acts[a], c, w.now, w.seqNo + 1), Changed(BaseOf(w.acts[a], c), c, at))
    ensures Apply(w, Cas(a, c, Good)).passes == w.passes + (if c.Pass? then 1 else 0)
    ensures Apply(w, Cas(a, c, Good)).nuid == w.nuid + (if c.Claim? || c.Start? then 1 else 0)
  {
  }

  lemma BadFrame(w: World, a: Aid, c: Change, sent: bool)
    requires Enabled(w, Cas(a, c, Bad(sent)))
    ensures var act := w.acts[a];
            Refused(w, Apply(w, Cas(a, c, Bad(sent))), a, Lost(act, c),
                    Write(a, Expected(act, c), BaseOf(act, c), c, ChangeTime(act, c, w.now)))
    ensures Apply(w, Cas(a, c, Bad(sent))).nuid == w.nuid + (if c.Claim? || c.Start? then 1 else 0)
    ensures SameHandle(w, a, Lost(w.acts[a], c))
  {
  }

  lemma LandFrame(w: World, wr: Write)
    requires Enabled(w, LandWrite(wr))
    ensures Landed(w, Apply(w, LandWrite(wr)), Changed(wr.base, wr.change, wr.at))
    ensures Apply(w, LandWrite(wr)).passes == w.passes + (if wr.change.Pass? then 1 else 0)
  {
  }

  /** A batch goes to the outbox, or is sent on its way. */
  lemma PutFrame(w: World, a: Aid, out: Outcome)
    requires Enabled(w, Put(a, out))
    ensures var act := w.acts[a]; var w' := Apply(w, Put(a, out));
      && w'.acts == w.acts[a := act.(pc := if out == Good then Marking(act.pc.key, act.pc.batch) else Leaving)]
      && w' == w.(acts := w'.acts, outbox := w'.outbox, puts := w'.puts)
      && w'.outbox == (if out == Good then w.outbox[act.pc.key := act.pc.batch] else w.outbox)
      && w'.puts == (if out.Bad? && out.sent then w.puts[act.pc.key := act.pc.batch] else w.puts)
  {
  }

  /** A publish call is counted; the copy may be on the stream, in flight, or lost. */
  lemma PublishFrame(w: World, a: Aid, dup: bool, out: Outcome)
    requires Enabled(w, Publish(a, dup, out))
    ensures var act := w.acts[a]; var pc := act.pc; var w' := Apply(w, Publish(a, dup, out));
      && w'.acts == w.acts[a := act.(pc := if out == Good then Advancing(pc.key, pc.batch, pc.i) else Deferring(pc.key, pc.batch, pc.i))]
      && w' == w.(acts := w'.acts, pub := w'.pub, calls := w'.calls, sends := w'.sends)
      && w'.calls == w.calls[pc.key := Calls(w, pc.key) + 1]
      && w'.pub == (if out == Good && !dup then w.pub + [Copy(pc.key, pc.i)] else w.pub)
      && w'.sends == (if out.Bad? && out.sent then w.sends[pc.key := Sends(w, pc.key) + [pc.i]] else w.sends)
  {
  }
}
