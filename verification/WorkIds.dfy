/** The broker knows messages by their IDs: it may drop a publish as a duplicate if the ID was used before,
    by whatever message (sdk/sdk.go:85-101). When outputs get IDs of their own, every such run is a run of
    the protocol; when they do not, outputs get lost. */
module WorkIds {
  import opened Wrappers
  import opened Events
  import opened Work
  import opened WorkFrames
  import opened WorkTheorems

  // ---------------------------------------------------------------- the broker

  function IdAt(w: World, c: Copy): Option<string> {
    if c.key in w.outbox && c.index < |w.outbox[c.key].events| then Some(w.outbox[c.key].events[c.index].id) else None
  }

  /** The ID is known to the broker: one of the `others`, put there by other tasks or operators at any time,
      or that of a message of this task. */
  predicate Taken(w: World, others: set<string>, id: string) {
    id in others || exists c :: c in w.pub && IdAt(w, c) == Some(id)
  }

  /** The output that this step publishes, if the broker answers that it is a duplicate. */
  function Dropped(w: World, l: Label): Option<Copy>
    requires Possible(w, l)
  {
    match l
    case Publish(a, dup, _) => if dup then Some(Copy(w.acts[a].pc.key, w.acts[a].pc.i)) else None
    case LandSend(key, j, dup) => if dup then Some(Copy(key, w.sends[key][j])) else None
    case _ => None
  }

  /** What can happen next with a broker that goes by message IDs. */
  predicate Accepted(w: World, l: Label, others: set<string>) {
    && Possible(w, l)
    && (Dropped(w, l).Some? ==> IdAt(w, Dropped(w, l).value).Some? && Taken(w, others, IdAt(w, Dropped(w, l).value).value))
  }

  predicate Brokered(w: World, ls: seq<Label>, others: set<string>)
    decreases |ls|
  {
    ls == [] || (Accepted(w, ls[0], others) && Brokered(Apply(w, ls[0]), ls[1..], others))
  }

  function Ending(w: World, ls: seq<Label>, others: set<string>): World
    requires Brokered(w, ls, others)
    decreases |ls|
  {
    if ls == [] then w else Ending(Apply(w, ls[0]), ls[1..], others)
  }

  // ---------------------------------------------------------------- the IDs in use

  /** Result keys and batches that are saved, or may still be. */
  function Batches(w: World): set<(Id, Batch)> {
    (set key | key in w.outbox :: (key, w.outbox[key])) + (set key | key in w.puts :: (key, w.puts[key]))
    + (set a | a in w.acts && w.acts[a].pc.Saving? :: (w.acts[a].pc.key, w.acts[a].pc.batch))
  }

  function UsedIds(w: World): set<string> {
    set b, i | b in Batches(w) && 0 <= i < |b.1.events| :: b.1.events[i].id
  }

  predicate SameId(b: (Id, Batch), i: nat, c: (Id, Batch), j: nat) {
    i < |b.1.events| && j < |c.1.events| && b.1.events[i].id == c.1.events[j].id
  }

  /** Every ID belongs to one output. */
  ghost predicate OneOutputPerId(w: World) {
    forall b, i: nat, c, j: nat :: b in Batches(w) && c in Batches(w) && SameId(b, i, c, j) ==> b.0 == c.0 && i == j
  }

  /** The batch a handler has just returned. */
  function Returned(w: World, l: Label): set<(Id, Batch)> {
    if l.Return? && l.a in w.acts && w.acts[l.a].pc.Calling? then {(w.acts[l.a].pc.key, l.batch)} else {}
  }

  /** Handlers return outputs with IDs of their own. */
  predicate NewIds(w: World, l: Label, others: set<string>) {
    l.Return? ==> FreshIds(l.batch.events, UsedIds(w) + others)
  }

  predicate AllNew(w: World, ls: seq<Label>, others: set<string>)
    requires Brokered(w, ls, others)
    decreases |ls|
  {
    ls == [] || (NewIds(w, ls[0], others) && AllNew(Apply(w, ls[0]), ls[1..], others))
  }

  lemma BatchesStep(w: World, l: Label)
    requires Enabled(w, l)
    ensures Batches(Apply(w, l)) <= Batches(w) + Returned(w, l)
  {
    if l.Cas? {
      BatchesCas(w, l.a, l.change, l.out);
    } else if l.LandWrite? {
      LandFrame(w, l.w);
    } else if Quiet(l) {
      BatchesQuiet(w, l);
    } else if l.Put? {
      PutFrame(w, l.a, l.out);
    } else if l.Publish? {
      PublishFrame(w, l.a, l.dup, l.out);
    }
  }

  lemma BatchesCas(w: World, a: Aid, c: Change, out: Outcome)
    requires Enabled(w, Cas(a, c, out))
    ensures Batches(Apply(w, Cas(a, c, out))) <= Batches(w)
  {
    var w' := Apply(w, Cas(a, c, out));
    if out == Good {
      GoodFrame(w, a, c);
      NoneSaved(w, w', a, Won(w.acts[a], c, w.now, w.seqNo + 1));
    } else {
      BadFrame(w, a, c, out.sent);
      NoneSaved(w, w', a, Lost(w.acts[a], c));
    }
  }

  lemma NoneSaved(w: World, w': World, a: Aid, act: Act)
    requires w'.acts == w.acts[a := act] && w'.outbox == w.outbox && w'.puts == w.puts
    requires act.pc.Saving? ==> a in w.acts && act.pc == w.acts[a].pc
    ensures Batches(w') <= Batches(w)
  {
  }

  lemma BatchesQuiet(w: World, l: Label)
    requires Enabled(w, l) && Quiet(l)
    ensures Batches(Apply(w, l)) <= Batches(w) + Returned(w, l)
  {
    QuietFrame(w, l);
    var act := NextAct(w, l);
    assert act.pc.Saving? ==> (Actor(l).value in w.acts && act.pc == w.acts[Actor(l).value].pc) || (act.pc.key, act.pc.batch) in Returned(w, l);
  }

  lemma UsedAt(w: World, b: (Id, Batch), i: nat)
    requires b in Batches(w) && i < |b.1.events|
    ensures b.1.events[i].id in UsedIds(w)
  {
  }

  /** At most one batch is added, and its IDs are new. */
  predicate AddsNew(w: World, w': World, added: set<(Id, Batch)>, others: set<string>) {
    && Batches(w') <= Batches(w) + added && (forall b, c :: b in added && c in added ==> b == c)
    && forall b :: b in added ==> FreshIds(b.1.events, UsedIds(w) + others)
  }

  /** New IDs keep every ID to one output. */
  lemma OneOutputGrows(w: World, w': World, added: set<(Id, Batch)>, others: set<string>)
    requires OneOutputPerId(w) && AddsNew(w, w', added, others)
    ensures OneOutputPerId(w')
  {
    forall b, i: nat, c, j: nat | b in Batches(w') && c in Batches(w') && SameId(b, i, c, j) ensures b.0 == c.0 && i == j {
      if b in Batches(w) { UsedAt(w, b, i); }
      if c in Batches(w) { UsedAt(w, c, j); }
    }
  }

  lemma OthersStay(w: World, w': World, added: set<(Id, Batch)>, others: set<string>)
    requires UsedIds(w) !! others && AddsNew(w, w', added, others)
    ensures UsedIds(w') !! others
  {
    forall id | id in UsedIds(w') ensures id !in others {
      var b, i :| b in Batches(w') && 0 <= i < |b.1.events| && b.1.events[i].id == id;
      if b in Batches(w) { UsedAt(w, b, i); }
    }
  }

  ghost predicate IdsOwned(w: World, others: set<string>) {
    OneOutputPerId(w) && UsedIds(w) !! others
  }

  lemma IdsOwnedStep(w: World, l: Label, others: set<string>)
    requires IdsOwned(w, others) && Enabled(w, l) && NewIds(w, l, others)
    ensures IdsOwned(Apply(w, l), others)
  {
    BatchesStep(w, l);
    OneOutputGrows(w, Apply(w, l), Returned(w, l), others);
    OthersStay(w, Apply(w, l), Returned(w, l), others);
  }

  // ---------------------------------------------------------------- own IDs are enough

  /** A saved output's ID names it. */
  lemma IdNames(w: World, others: set<string>, c: Copy, c': Copy)
    requires IdsOwned(w, others) && IdAt(w, c).Some? && IdAt(w, c') == IdAt(w, c)
    ensures c' == c && IdAt(w, c).value !in others
  {
    var b, b' := (c.key, w.outbox[c.key]), (c'.key, w.outbox[c'.key]);
    assert b in Batches(w) && b' in Batches(w) && SameId(b, c.index, b', c'.index);
    UsedAt(w, b, c.index);
  }

  /** With IDs of their own, only the very same output is taken for a duplicate. */
  lemma AcceptedIsStep(w: World, l: Label, others: set<string>)
    requires IdsOwned(w, others) && Accepted(w, l, others)
    ensures Enabled(w, l)
  {
    if Dropped(w, l).Some? {
      var c := Dropped(w, l).value;
      if exists c' :: c' in w.pub && IdAt(w, c') == IdAt(w, c) {
        var c' :| c' in w.pub && IdAt(w, c') == IdAt(w, c);
        IdNames(w, others, c, c');
      } else {
        IdNames(w, others, c, c);
      }
    }
  }

  /** Every run with a broker that goes by IDs, in which handlers return outputs with new IDs, is a run of
      the protocol: whatever holds of those holds of it. */
  lemma {:induction false} BrokeredIsRun(w: World, ls: seq<Label>, others: set<string>)
    requires IdsOwned(w, others) && Brokered(w, ls, others) && AllNew(w, ls, others)
    ensures Runs(w, ls) && Final(w, ls) == Ending(w, ls, others) && IdsOwned(Ending(w, ls, others), others)
    decreases |ls|
  {
    if ls != [] {
      AcceptedIsStep(w, ls[0], others);
      IdsOwnedStep(w, ls[0], others);
      BrokeredIsRun(Apply(w, ls[0]), ls[1..], others);
    }
  }

  /** What a completed task says of its outputs: no error, all of the batch on the stream. */
  predicate AllPublished(w: World) {
    w.kv.Some? && w.kv.value.task.status == Completed ==>
      var t := w.kv.value.task;
      && t.error == NoError && t.resultKey.Some? && t.resultKey.value in w.outbox && w.outbox[t.resultKey.value].error.None?
      && forall j :: 0 <= j < |w.outbox[t.resultKey.value].events| ==> Copy(t.resultKey.value, j) in w.pub
  }

  /** With a broker that goes by IDs: if every output gets an ID of its own, outputs are accounted for
      exactly and completed tasks have published them all. */
  lemma AccountedById(ls: seq<Label>, others: set<string>)
    requires Brokered(INITIAL, ls, others) && AllNew(INITIAL, ls, others)
    ensures ExactlyAccounted(Ending(INITIAL, ls, others)) && AllPublished(Ending(INITIAL, ls, others))
  {
    assert Batches(INITIAL) == {};
    assert UsedIds(INITIAL) == {};
    BrokeredIsRun(INITIAL, ls, others);
    ExactAccounting(ls);
    if Final(INITIAL, ls).kv.Some? && Final(INITIAL, ls).kv.value.task.status == Completed { CompletedMeansPublished(ls); }
  }
}
