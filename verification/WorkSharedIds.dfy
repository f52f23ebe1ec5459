/** One undisturbed delivery whose handler succeeds, with a broker that goes by message IDs: the task ends
    completed, and all its outputs are on the stream exactly if every output has an ID of its own. */
module WorkSharedIds {
  import opened Wrappers
  import opened Events
  import opened Work
  import opened WorkInvariant
  import opened WorkTheorems
  import opened WorkTwoLeases
  import opened WorkIds

  /** Output i has the ID of an earlier one, or of somebody else's message. */
  predicate Shares(events: seq<Event>, others: set<string>, i: nat)
    requires i < |events|
  {
    events[i].id in others || exists k :: 0 <= k < i && events[k].id == events[i].id
  }

  /** The copies of the first n outputs that the broker stores. */
  function Kept(events: seq<Event>, others: set<string>, n: nat): seq<Copy>
    requires n <= |events|
  {
    if n == 0 then []
    else Kept(events, others, n - 1) + (if Shares(events, others, n - 1) then [] else [Copy(1, n - 1)])
  }

  lemma {:induction false} KeptAre(events: seq<Event>, others: set<string>, n: nat, c: Copy)
    requires n <= |events|
    ensures c in Kept(events, others, n) <==> c.key == 1 && c.index < n && !Shares(events, others, c.index)
  {
    if n > 0 { KeptAre(events, others, n - 1, c); }
  }

  /** The first output with this ID does not share it. */
  lemma {:induction false} FirstWith(events: seq<Event>, others: set<string>, id: string, k: nat) returns (j: nat)
    requires k < |events| && events[k].id == id && id !in others
    ensures j <= k && events[j].id == id && !Shares(events, others, j)
    decreases k
  {
    if Shares(events, others, k) {
      var i :| 0 <= i < k && events[i].id == events[k].id;
      j := FirstWith(events, others, id, i);
    } else {
      j := k;
    }
  }

  // ---------------------------------------------------------------- the run

  predicate Leads(ls: seq<Label>, w: World, others: set<string>) {
    Brokered(INITIAL, ls, others) && Ending(INITIAL, ls, others) == w
  }

  lemma {:induction false} BrokeredSnoc(w: World, ls: seq<Label>, l: Label, others: set<string>)
    requires Brokered(w, ls, others) && Accepted(Ending(w, ls, others), l, others)
    ensures Brokered(w, ls + [l], others) && Ending(w, ls + [l], others) == Apply(Ending(w, ls, others), l)
    decreases |ls|
  {
    if ls == [] {
      assert ([] + [l])[1..] == [];
    } else {
      assert (ls + [l])[1..] == ls[1..] + [l];
      BrokeredSnoc(Apply(w, ls[0]), ls[1..], l, others);
    }
  }

  lemma Lead(ls: seq<Label>, w: World, l: Label, w': World, others: set<string>) returns (more: seq<Label>)
    requires Leads(ls, w, others) && Accepted(w, l, others) && Apply(w, l) == w'
    ensures Leads(more, w', others)
  {
    BrokeredSnoc(INITIAL, ls, l, others);
    more := ls + [l];
  }

  /** A run that publishes nothing does not depend on the broker. */
  lemma {:induction false} SilentRun(w: World, ls: seq<Label>, others: set<string>)
    requires Runs(w, ls) && forall l :: l in ls ==> !l.Publish? && !l.LandSend?
    ensures Brokered(w, ls, others) && Ending(w, ls, others) == Final(w, ls)
    decreases |ls|
  {
    if ls != [] {
      assert ls[0] in ls;
      SilentRun(Apply(w, ls[0]), ls[1..], others);
    }
  }

  lemma LeadStarted(cfg: Config, ev: Event, others: set<string>) returns (ls: seq<Label>)
    requires ValidConfig(cfg)
    ensures Leads(ls, Held(cfg, ev, Armed(1), Started(cfg, ev), 2, 2), others)
  {
    ls := TwoRun(cfg, ev)[..6];
    ReachStarted(cfg, ev);
    SilentRun(INITIAL, ls, others);
  }

  /** The record after the batch is marked publishing and a pass is spent on it, if it has outputs. */
  function Entered(cfg: Config, ev: Event, batch: Batch): Task {
    if batch.events == [] then Marked(cfg, ev) else Changed(Some(Marked(cfg, ev)), Pass, 1)
  }

  /** And after the first i outputs. */
  function Sent(cfg: Config, ev: Event, batch: Batch, i: nat): Task {
    if i == 0 then Entered(cfg, ev, batch) else Changed(Some(Sent(cfg, ev, batch, i - 1)), Advance(i - 1), 1)
  }

  function Revision(batch: Batch, i: nat): nat {
    (if batch.events == [] then 3 else 4) + i
  }

  function Filed(cfg: Config, ev: Event, batch: Batch, pc: Pc, t: Task, rev: nat): World {
    Running2(cfg, ev, pc, t, rev).(outbox := map[1 := batch])
  }

  lemma ToFiled(cfg: Config, ev: Event, batch: Batch)
    ensures var w := Running2(cfg, ev, Calling(1), Started(cfg, ev), 2); var w' := Running2(cfg, ev, Saving(1, batch), Started(cfg, ev), 2);
      && Accepted(w, Return(0, batch), {}) && Apply(w, Return(0, batch)) == w'
      && Accepted(w', Put(0, Good), {}) && Apply(w', Put(0, Good)) == Filed(cfg, ev, batch, Marking(1, batch), Started(cfg, ev), 2)
  {
    var w, w' := Running2(cfg, ev, Calling(1), Started(cfg, ev), 2), Running2(cfg, ev, Saving(1, batch), Started(cfg, ev), 2);
    assert Apply(w, Return(0, batch)).acts == w'.acts;
    assert Apply(w', Put(0, Good)).acts == Filed(cfg, ev, batch, Marking(1, batch), Started(cfg, ev), 2).acts;
    assert Apply(w', Put(0, Good)).outbox == map[1 := batch];
  }

  /** A step that publishes nothing is accepted by every broker. */
  lemma SilentStep(w: World, l: Label, others: set<string>)
    requires Possible(w, l) && !l.Publish? && !l.LandSend?
    ensures Accepted(w, l, others)
  {
  }

  lemma LeadFiled(cfg: Config, ev: Event, batch: Batch, others: set<string>) returns (ls: seq<Label>)
    requires ValidConfig(cfg)
    ensures Leads(ls, Filed(cfg, ev, batch, Marking(1, batch), Started(cfg, ev), 2), others)
  {
    ls := LeadStarted(cfg, ev, others);
    ToReturned(cfg, ev);
    ls := Lead(ls, Held(cfg, ev, Armed(1), Started(cfg, ev), 2, 2), Call(0), Running2(cfg, ev, Calling(1), Started(cfg, ev), 2), others);
    ToFiled(cfg, ev, batch);
    SilentStep(Running2(cfg, ev, Calling(1), Started(cfg, ev), 2), Return(0, batch), others);
    ls := Lead(ls, Running2(cfg, ev, Calling(1), Started(cfg, ev), 2), Return(0, batch), Running2(cfg, ev, Saving(1, batch), Started(cfg, ev), 2), others);
    SilentStep(Running2(cfg, ev, Saving(1, batch), Started(cfg, ev), 2), Put(0, Good), others);
    ls := Lead(ls, Running2(cfg, ev, Saving(1, batch), Started(cfg, ev), 2), Put(0, Good),
               Filed(cfg, ev, batch, Marking(1, batch), Started(cfg, ev), 2), others);
  }

  /** i outputs have been published. */
  function Looping(cfg: Config, ev: Event, batch: Batch, others: set<string>, i: nat, pc: Pc): World
    requires i <= |batch.events|
  {
    Filed(cfg, ev, batch, pc, Sent(cfg, ev, batch, i), Revision(batch, i)).(
      passes := if batch.events == [] then 0 else 1, pub := Kept(batch.events, others, i), calls := if i == 0 then map[] else map[1 := i])
  }

  lemma ToEntered(cfg: Config, ev: Event, batch: Batch, others: set<string>)
    requires ValidConfig(cfg)
    ensures var w := Filed(cfg, ev, batch, Marking(1, batch), Started(cfg, ev), 2);
      && Possible(w, Cas(0, Mark, Good))
      && Apply(w, Cas(0, Mark, Good)) == Filed(cfg, ev, batch, EnterPc(1, batch, Marked(cfg, ev)), Marked(cfg, ev), 3)
    ensures batch.events == [] ==>
      Filed(cfg, ev, batch, EnterPc(1, batch, Marked(cfg, ev)), Marked(cfg, ev), 3) == Looping(cfg, ev, batch, others, 0, Loop(1, batch, 0))
  {
    var w := Filed(cfg, ev, batch, Marking(1, batch), Started(cfg, ev), 2);
    assert Apply(w, Cas(0, Mark, Good)).acts == Filed(cfg, ev, batch, EnterPc(1, batch, Marked(cfg, ev)), Marked(cfg, ev), 3).acts;
  }

  lemma ToPassed(cfg: Config, ev: Event, batch: Batch, others: set<string>)
    requires ValidConfig(cfg) && batch.events != []
    ensures EnterPc(1, batch, Marked(cfg, ev)) == Entering(1, batch)
    ensures var w := Filed(cfg, ev, batch, Entering(1, batch), Marked(cfg, ev), 3);
      Possible(w, Cas(0, Pass, Good)) && Apply(w, Cas(0, Pass, Good)) == Looping(cfg, ev, batch, others, 0, Loop(1, batch, 0))
  {
    var w := Filed(cfg, ev, batch, Entering(1, batch), Marked(cfg, ev), 3);
    assert Apply(w, Cas(0, Pass, Good)).acts == Looping(cfg, ev, batch, others, 0, Loop(1, batch, 0)).acts;
  }

  lemma LeadLoop(cfg: Config, ev: Event, batch: Batch, others: set<string>) returns (ls: seq<Label>)
    requires ValidConfig(cfg)
    ensures Leads(ls, Looping(cfg, ev, batch, others, 0, Loop(1, batch, 0)), others)
  {
    ls := LeadFiled(cfg, ev, batch, others);
    ToEntered(cfg, ev, batch, others);
    var w := Filed(cfg, ev, batch, Marking(1, batch), Started(cfg, ev), 2);
    var w' := Filed(cfg, ev, batch, EnterPc(1, batch, Marked(cfg, ev)), Marked(cfg, ev), 3);
    SilentStep(w, Cas(0, Mark, Good), others);
    ls := Lead(ls, w, Cas(0, Mark, Good), w', others);
    if batch.events != [] {
      ToPassed(cfg, ev, batch, others);
      SilentStep(w', Cas(0, Pass, Good), others);
      ls := Lead(ls, w', Cas(0, Pass, Good), Looping(cfg, ev, batch, others, 0, Loop(1, batch, 0)), others);
    }
  }

  lemma {:induction false} SentShape(cfg: Config, ev: Event, batch: Batch, i: nat)
    ensures var t := Sent(cfg, ev, batch, i);
      t == Entered(cfg, ev, batch).(nextOutput := i, emitted := i, updated := 1)
  {
    if i > 0 { SentShape(cfg, ev, batch, i - 1); }
  }

  /** The broker knows the ID exactly if the output shares it. */
  lemma TakenIff(cfg: Config, ev: Event, batch: Batch, others: set<string>, i: nat)
    requires i < |batch.events|
    ensures Taken(Looping(cfg, ev, batch, others, i, Loop(1, batch, i)), others, batch.events[i].id) <==> Shares(batch.events, others, i)
  {
    var w, id := Looping(cfg, ev, batch, others, i, Loop(1, batch, i)), batch.events[i].id;
    forall c ensures c in w.pub <==> c.key == 1 && c.index < i && !Shares(batch.events, others, c.index) {
      KeptAre(batch.events, others, i, c);
    }
    if id !in others && exists k :: 0 <= k < i && batch.events[k].id == id {
      var k :| 0 <= k < i && batch.events[k].id == id;
      var j := FirstWith(batch.events, others, id, k);
      assert Copy(1, j) in w.pub && IdAt(w, Copy(1, j)) == Some(id);
    }
  }

  /** Output i is published, and stored unless it shares its ID. */
  function Publishing1(cfg: Config, ev: Event, batch: Batch, others: set<string>, i: nat): World
    requires i < |batch.events|
  {
    Looping(cfg, ev, batch, others, i, Advancing(1, batch, i)).(pub := Kept(batch.events, others, i + 1), calls := map[1 := i + 1])
  }

  lemma ToPublished(cfg: Config, ev: Event, batch: Batch, others: set<string>, i: nat)
    requires i < |batch.events|
    ensures var w := Looping(cfg, ev, batch, others, i, Loop(1, batch, i)); var l := Publish(0, Shares(batch.events, others, i), Good);
      Possible(w, l) && Apply(w, l) == Publishing1(cfg, ev, batch, others, i)
  {
    var w, l := Looping(cfg, ev, batch, others, i, Loop(1, batch, i)), Publish(0, Shares(batch.events, others, i), Good);
    assert Apply(w, l).acts == Publishing1(cfg, ev, batch, others, i).acts;
    assert Apply(w, l).calls == map[1 := i + 1];
  }

  lemma PublishAccepted(cfg: Config, ev: Event, batch: Batch, others: set<string>, i: nat)
    requires i < |batch.events|
    ensures Accepted(Looping(cfg, ev, batch, others, i, Loop(1, batch, i)), Publish(0, Shares(batch.events, others, i), Good), others)
  {
    TakenIff(cfg, ev, batch, others, i);
  }

  lemma ToAdvanced(cfg: Config, ev: Event, batch: Batch, others: set<string>, i: nat)
    requires i < |batch.events|
    ensures var w := Publishing1(cfg, ev, batch, others, i);
      && Possible(w, Cas(0, Advance(i), Good))
      && Apply(w, Cas(0, Advance(i), Good)) == Looping(cfg, ev, batch, others, i + 1, Loop(1, batch, i + 1))
  {
    var w := Publishing1(cfg, ev, batch, others, i);
    assert Apply(w, Cas(0, Advance(i), Good)).acts == Looping(cfg, ev, batch, others, i + 1, Loop(1, batch, i + 1)).acts;
  }

  /** This run ends in front of output i. */
  predicate AtOutput(ls: seq<Label>, cfg: Config, ev: Event, batch: Batch, others: set<string>, i: nat) {
    i <= |batch.events| && Leads(ls, Looping(cfg, ev, batch, others, i, Loop(1, batch, i)), others)
  }

  lemma LeadOne(cfg: Config, ev: Event, batch: Batch, others: set<string>, i: nat, ls: seq<Label>) returns (more: seq<Label>)
    requires i < |batch.events| && AtOutput(ls, cfg, ev, batch, others, i)
    ensures AtOutput(more, cfg, ev, batch, others, i + 1)
  {
    var w, w' := Looping(cfg, ev, batch, others, i, Loop(1, batch, i)), Publishing1(cfg, ev, batch, others, i);
    ToPublished(cfg, ev, batch, others, i);
    PublishAccepted(cfg, ev, batch, others, i);
    more := Lead(ls, w, Publish(0, Shares(batch.events, others, i), Good), w', others);
    ToAdvanced(cfg, ev, batch, others, i);
    SilentStep(w', Cas(0, Advance(i), Good), others);
    more := Lead(more, w', Cas(0, Advance(i), Good), Looping(cfg, ev, batch, others, i + 1, Loop(1, batch, i + 1)), others);
  }

  lemma LeadFirst(cfg: Config, ev: Event, batch: Batch, others: set<string>) returns (ls: seq<Label>)
    requires ValidConfig(cfg)
    ensures AtOutput(ls, cfg, ev, batch, others, 0)
  {
    ls := LeadLoop(cfg, ev, batch, others);
  }

  lemma {:induction false} LeadSent(cfg: Config, ev: Event, batch: Batch, others: set<string>, i: nat) returns (ls: seq<Label>)
    requires ValidConfig(cfg) && i <= |batch.events|
    ensures AtOutput(ls, cfg, ev, batch, others, i)
    decreases i
  {
    if i == 0 {
      ls := LeadFirst(cfg, ev, batch, others);
    } else {
      ls := LeadSent(cfg, ev, batch, others, i - 1);
      ls := LeadOne(cfg, ev, batch, others, i - 1, ls);
    }
  }

  // ---------------------------------------------------------------- the end

  function Done(cfg: Config, ev: Event, batch: Batch, others: set<string>): World {
    var n := |batch.events|;
    var t := Changed(Some(Sent(cfg, ev, batch, n)), Finish(Completed, NoError), 1);
    Looping(cfg, ev, batch, others, n, Loop(1, batch, n)).(
      kv := Some(Record(t, Revision(batch, n) + 1)), seqNo := Revision(batch, n) + 1,
      acts := map[0 := First(cfg, ev, Acking, t, Revision(batch, n) + 1)])
  }

  lemma ToClosed(cfg: Config, ev: Event, batch: Batch, others: set<string>)
    requires batch.error.None?
    ensures var n := |batch.events|; var w := Looping(cfg, ev, batch, others, n, Loop(1, batch, n));
      Possible(w, Judge(0)) && Apply(w, Judge(0)) == Looping(cfg, ev, batch, others, n, Closing(1, batch, false))
  {
    var n := |batch.events|;
    var w, w' := Looping(cfg, ev, batch, others, n, Loop(1, batch, n)), Looping(cfg, ev, batch, others, n, Closing(1, batch, false));
    assert Apply(w, Judge(0)).acts == w'.acts;
  }

  lemma ToDone(cfg: Config, ev: Event, batch: Batch, others: set<string>)
    requires batch.error.None?
    ensures var n := |batch.events|; var w := Looping(cfg, ev, batch, others, n, Closing(1, batch, false)); var l := Cas(0, Finish(Completed, NoError), Good);
      Possible(w, l) && Apply(w, l) == Done(cfg, ev, batch, others)
  {
    var n := |batch.events|;
    var w' := Looping(cfg, ev, batch, others, n, Closing(1, batch, false));
    assert Apply(w', Cas(0, Finish(Completed, NoError), Good)).acts == Done(cfg, ev, batch, others).acts;
  }

  lemma LeadDone(cfg: Config, ev: Event, batch: Batch, others: set<string>) returns (ls: seq<Label>)
    requires ValidConfig(cfg) && batch.error.None?
    ensures Leads(ls, Done(cfg, ev, batch, others), others)
  {
    var n := |batch.events|;
    var w, w' := Looping(cfg, ev, batch, others, n, Loop(1, batch, n)), Looping(cfg, ev, batch, others, n, Closing(1, batch, false));
    ls := LeadSent(cfg, ev, batch, others, n);
    ToClosed(cfg, ev, batch, others);
    ToDone(cfg, ev, batch, others);
    SilentStep(w, Judge(0), others);
    ls := Lead(ls, w, Judge(0), w', others);
    SilentStep(w', Cas(0, Finish(Completed, NoError), Good), others);
    ls := Lead(ls, w', Cas(0, Finish(Completed, NoError), Good), Done(cfg, ev, batch, others), others);
  }

  // ---------------------------------------------------------------- the theorem

  lemma FreshShares(events: seq<Event>, others: set<string>)
    ensures FreshIds(events, others) <==> forall i :: 0 <= i < |events| ==> !Shares(events, others, i)
  {
    if !FreshIds(events, others) {
      if i, j :| 0 <= i < j < |events| && events[i].id == events[j].id {
        assert Shares(events, others, j);
      } else {
        var i :| 0 <= i < |events| && events[i].id in others;
        assert Shares(events, others, i);
      }
    }
  }

  function CopiesBelow(n: nat): set<Copy> {
    set i | 0 <= i < n :: Copy(1, i)
  }

  lemma {:induction false} CopiesCount(n: nat)
    ensures |CopiesBelow(n)| == n
  {
    if n > 0 {
      CopiesCount(n - 1);
      assert CopiesBelow(n) == CopiesBelow(n - 1) + {Copy(1, n - 1)};
    }
  }

  lemma {:induction false} SubsetSize(a: set<Copy>, b: set<Copy>)
    requires a <= b
    ensures |a| <= |b| && (|a| == |b| ==> a == b)
  {
    if a != {} {
      var x :| x in a;
      SubsetSize(a - {x}, b - {x});
    }
  }

  lemma KeptCount(events: seq<Event>, others: set<string>)
    ensures var n := |events|; |Distinct(Kept(events, others, n))| == n <==> FreshIds(events, others)
  {
    var n := |events|;
    var kept := Distinct(Kept(events, others, n));
    forall c: Copy ensures c in kept <==> c.key == 1 && c.index < n && !Shares(events, others, c.index) {
      KeptAre(events, others, n, c);
    }
    CopiesCount(n);
    assert kept <= CopiesBelow(n);
    SubsetSize(kept, CopiesBelow(n));
    FreshShares(events, others);
    if |kept| == n {
      forall i | 0 <= i < n ensures !Shares(events, others, i) { assert Copy(1, i) in CopiesBelow(n); }
    }
    if FreshIds(events, others) {
      assert CopiesBelow(n) <= kept;
      assert kept == CopiesBelow(n);
    }
  }

  /** A run of one replica that meets no fault and whose handler returns these outputs without an error: the
      task is completed and counts all of them as emitted; they are all on the stream, and the count is
      right, exactly if their IDs are distinct and nobody else's. */
  lemma PublishedIff(cfg: Config, ev: Event, batch: Batch, others: set<string>) returns (ls: seq<Label>)
    requires ValidConfig(cfg) && batch.error.None?
    ensures Brokered(INITIAL, ls, others)
    ensures var w := Ending(INITIAL, ls, others);
      && w.kv.Some? && w.kv.value.task.status == Completed && w.kv.value.task.emitted == |batch.events| && w.outbox == map[1 := batch]
      && (AllPublished(w) <==> FreshIds(batch.events, others))
      && (ExactlyAccounted(w) <==> FreshIds(batch.events, others))
  {
    ls := LeadDone(cfg, ev, batch, others);
    PublishedAt(cfg, ev, batch, others);
    KeptCount(batch.events, others);
    FreshShares(batch.events, others);
    forall i | 0 <= i < |batch.events| ensures Copy(1, i) in Done(cfg, ev, batch, others).pub <==> !Shares(batch.events, others, i) {
      KeptAre(batch.events, others, |batch.events|, Copy(1, i));
    }
  }

  /** What the last world says. */
  lemma PublishedAt(cfg: Config, ev: Event, batch: Batch, others: set<string>)
    requires batch.error.None?
    ensures var w := Done(cfg, ev, batch, others); var n := |batch.events|;
      && w.kv.Some? && w.kv.value.task.status == Completed && w.kv.value.task.emitted == n
      && (AllPublished(w) <==> forall i :: 0 <= i < n ==> Copy(1, i) in w.pub)
      && (ExactlyAccounted(w) <==> |Distinct(w.pub)| == n)
  {
    SentShape(cfg, ev, batch, |batch.events|);
  }
}
