/** Two lease handles whose own copies both look unexpired: the first delivery has returned because the
    write that released its lease reported an error, and yet took effect. */
module WorkTwoLeases {
  import opened Wrappers
  import opened Events
  import opened Work
  import opened WorkInvariant
  import opened WorkAcks

  const FAILED := Batch([], Some("e"), true)

  function Until(cfg: Config): nat { 1 + cfg.leaseDuration }

  function ClaimAs(cfg: Config, ev: Event, id: Id): Change { Claim(FreshTask(cfg, ev, 1), id, Until(cfg)) }

  const RETRY := Retry(Handler("e"), 1)

  function Claimed(cfg: Config, ev: Event): Task { Changed(None, ClaimAs(cfg, ev, 0), 1) }
  function Started(cfg: Config, ev: Event): Task { Changed(Some(Claimed(cfg, ev)), Start(1), 1) }
  function Marked(cfg: Config, ev: Event): Task { Changed(Some(Started(cfg, ev)), Mark, 1) }
  function Waiting(cfg: Config, ev: Event): Task { Changed(Some(Marked(cfg, ev)), RETRY, 1) }

  function Pending(cfg: Config, ev: Event): Write { Write(0, 3, Some(Marked(cfg, ev)), RETRY, 1) }

  /** The first delivery claims, runs a handler that fails transiently, and is told that its retry could
      not be scheduled; the request lands all the same, and the second delivery claims. */
  function TwoRun(cfg: Config, ev: Event): seq<Label> {
    [Deliver(0, 1, cfg, ev), Get(0), Cas(0, ClaimAs(cfg, ev, 0), Good), Load(0), Judge(0), Cas(0, Start(1), Good), Call(0),
     Return(0, FAILED), Put(0, Good), Cas(0, Mark, Good), Judge(0), Cas(0, RETRY, Bad(true)), LandWrite(Pending(cfg, ev)),
     Deliver(1, 1, cfg, ev), Get(1), Cas(1, ClaimAs(cfg, ev, 2), Good)]
  }

  function First(cfg: Config, ev: Event, pc: Pc, t: Task, rev: nat): Act {
    Act(1, cfg, ev, pc, Some(Lease(t, rev)), Some(0))
  }

  /** A world in which only the first delivery exists and holds the record. */
  function Held(cfg: Config, ev: Event, pc: Pc, t: Task, rev: nat, nuid: Id): World {
    INITIAL.(nuid := nuid, seqNo := rev, kv := Some(Record(t, rev)), acts := map[0 := First(cfg, ev, pc, t, rev)])
  }

  predicate Steps(w: World, l: Label, w': World) {
    Enabled(w, l) && Apply(w, l) == w'
  }

  lemma ToClaimed(cfg: Config, ev: Event)
    requires ValidConfig(cfg)
    ensures var w := INITIAL.(acts := map[0 := Act(1, cfg, ev, Seen(None, 1), None, None)]);
      Steps(w, Cas(0, ClaimAs(cfg, ev, 0), Good), Held(cfg, ev, Leased, Claimed(cfg, ev), 1, 1))
  {
    var w := INITIAL.(acts := map[0 := Act(1, cfg, ev, Seen(None, 1), None, None)]);
    assert Apply(w, Cas(0, ClaimAs(cfg, ev, 0), Good)).acts == Held(cfg, ev, Leased, Claimed(cfg, ev), 1, 1).acts;
  }

  lemma ToStarting(cfg: Config, ev: Event)
    requires ValidConfig(cfg)
    ensures Steps(Held(cfg, ev, Leased, Claimed(cfg, ev), 1, 1), Load(0), Held(cfg, ev, Missing, Claimed(cfg, ev), 1, 1))
    ensures Steps(Held(cfg, ev, Missing, Claimed(cfg, ev), 1, 1), Judge(0), Held(cfg, ev, Starting, Claimed(cfg, ev), 1, 1))
  {
    var w := Held(cfg, ev, Leased, Claimed(cfg, ev), 1, 1);
    assert Apply(w, Load(0)).acts == Held(cfg, ev, Missing, Claimed(cfg, ev), 1, 1).acts;
    var w' := Held(cfg, ev, Missing, Claimed(cfg, ev), 1, 1);
    assert Apply(w', Judge(0)).acts == Held(cfg, ev, Starting, Claimed(cfg, ev), 1, 1).acts;
  }

  lemma ToStarted(cfg: Config, ev: Event)
    requires ValidConfig(cfg)
    ensures Steps(Held(cfg, ev, Starting, Claimed(cfg, ev), 1, 1), Cas(0, Start(1), Good), Held(cfg, ev, Armed(1), Started(cfg, ev), 2, 2))
  {
    var w := Held(cfg, ev, Starting, Claimed(cfg, ev), 1, 1);
    assert Apply(w, Cas(0, Start(1), Good)).acts == Held(cfg, ev, Armed(1), Started(cfg, ev), 2, 2).acts;
  }

  function Running2(cfg: Config, ev: Event, pc: Pc, t: Task, rev: nat): World {
    Held(cfg, ev, pc, t, rev, 2).(invocations := 1)
  }

  lemma ToReturned(cfg: Config, ev: Event)
    ensures Steps(Held(cfg, ev, Armed(1), Started(cfg, ev), 2, 2), Call(0), Running2(cfg, ev, Calling(1), Started(cfg, ev), 2))
    ensures Steps(Running2(cfg, ev, Calling(1), Started(cfg, ev), 2), Return(0, FAILED), Running2(cfg, ev, Saving(1, FAILED), Started(cfg, ev), 2))
  {
    var w := Held(cfg, ev, Armed(1), Started(cfg, ev), 2, 2);
    assert Apply(w, Call(0)).acts == Running2(cfg, ev, Calling(1), Started(cfg, ev), 2).acts;
    var w' := Running2(cfg, ev, Calling(1), Started(cfg, ev), 2);
    assert Apply(w', Return(0, FAILED)).acts == Running2(cfg, ev, Saving(1, FAILED), Started(cfg, ev), 2).acts;
  }

  function Saved1(cfg: Config, ev: Event, pc: Pc, t: Task, rev: nat): World {
    Running2(cfg, ev, pc, t, rev).(outbox := map[1 := FAILED])
  }

  lemma ToSaved(cfg: Config, ev: Event)
    ensures Steps(Running2(cfg, ev, Saving(1, FAILED), Started(cfg, ev), 2), Put(0, Good), Saved1(cfg, ev, Marking(1, FAILED), Started(cfg, ev), 2))
  {
    var w := Running2(cfg, ev, Saving(1, FAILED), Started(cfg, ev), 2);
    assert Apply(w, Put(0, Good)).acts == Saved1(cfg, ev, Marking(1, FAILED), Started(cfg, ev), 2).acts;
    assert Apply(w, Put(0, Good)).outbox == map[1 := FAILED];
  }

  lemma ToMarked(cfg: Config, ev: Event)
    ensures Steps(Saved1(cfg, ev, Marking(1, FAILED), Started(cfg, ev), 2), Cas(0, Mark, Good), Saved1(cfg, ev, Loop(1, FAILED, 0), Marked(cfg, ev), 3))
  {
    var w := Saved1(cfg, ev, Marking(1, FAILED), Started(cfg, ev), 2);
    assert Apply(w, Cas(0, Mark, Good)).acts == Saved1(cfg, ev, Loop(1, FAILED, 0), Marked(cfg, ev), 3).acts;
  }

  function Refused(cfg: Config, ev: Event): World {
    Saved1(cfg, ev, Leaving, Marked(cfg, ev), 3).(writes := {Pending(cfg, ev)})
  }

  lemma ToClosing(cfg: Config, ev: Event)
    requires ValidConfig(cfg) && cfg.maxAttempts >= 2
    ensures Steps(Saved1(cfg, ev, Loop(1, FAILED, 0), Marked(cfg, ev), 3), Judge(0), Saved1(cfg, ev, Closing(1, FAILED, true), Marked(cfg, ev), 3))
  {
    var w := Saved1(cfg, ev, Loop(1, FAILED, 0), Marked(cfg, ev), 3);
    assert Apply(w, Judge(0)).acts == Saved1(cfg, ev, Closing(1, FAILED, true), Marked(cfg, ev), 3).acts;
  }

  lemma ToRefused(cfg: Config, ev: Event)
    ensures Steps(Saved1(cfg, ev, Closing(1, FAILED, true), Marked(cfg, ev), 3), Cas(0, RETRY, Bad(true)), Refused(cfg, ev))
  {
    var w := Saved1(cfg, ev, Closing(1, FAILED, true), Marked(cfg, ev), 3);
    assert Apply(w, Cas(0, RETRY, Bad(true))).acts == Refused(cfg, ev).acts;
    assert Apply(w, Cas(0, RETRY, Bad(true))).writes == {Pending(cfg, ev)};
  }

  function Landed(cfg: Config, ev: Event): World {
    Refused(cfg, ev).(writes := {}, seqNo := 4, kv := Some(Record(Waiting(cfg, ev), 4)))
  }

  lemma ToLanded(cfg: Config, ev: Event)
    ensures Steps(Refused(cfg, ev), LandWrite(Pending(cfg, ev)), Landed(cfg, ev))
  {
    assert Refused(cfg, ev).writes - {Pending(cfg, ev)} == {};
  }

  /** The second delivery. */
  function Second(cfg: Config, ev: Event, act: Act): World {
    Landed(cfg, ev).(acts := map[0 := First(cfg, ev, Leaving, Marked(cfg, ev), 3), 1 := act])
  }

  lemma ToSeen(cfg: Config, ev: Event)
    requires ValidConfig(cfg)
    ensures Steps(Landed(cfg, ev), Deliver(1, 1, cfg, ev), Second(cfg, ev, Act(1, cfg, ev, Delivered, None, None)))
    ensures Steps(Second(cfg, ev, Act(1, cfg, ev, Delivered, None, None)), Get(1),
                  Second(cfg, ev, Act(1, cfg, ev, Seen(Some(Record(Waiting(cfg, ev), 4)), 1), None, None)))
  {
    assert Apply(Landed(cfg, ev), Deliver(1, 1, cfg, ev)).acts == Second(cfg, ev, Act(1, cfg, ev, Delivered, None, None)).acts;
    var w := Second(cfg, ev, Act(1, cfg, ev, Delivered, None, None));
    assert Apply(w, Get(1)).acts == Second(cfg, ev, Act(1, cfg, ev, Seen(Some(Record(Waiting(cfg, ev), 4)), 1), None, None)).acts;
  }

  lemma SecondClaims(cfg: Config, ev: Event)
    requires ValidConfig(cfg)
    ensures var w := Second(cfg, ev, Act(1, cfg, ev, Seen(Some(Record(Waiting(cfg, ev), 4)), 1), None, None));
      && Enabled(w, Cas(1, ClaimAs(cfg, ev, 2), Good))
      && TwoHolders(Apply(w, Cas(1, ClaimAs(cfg, ev, 2), Good)))
  {
  }

  /** Both handles' own copies of the task say that the lease has not expired. */
  predicate TwoHolders(w: World) {
    && 0 in w.acts && 1 in w.acts && w.acts[0].lease.Some? && w.acts[1].lease.Some?
    && w.acts[0].lease.value.task.leaseUntil > w.now && w.acts[1].lease.value.task.leaseUntil > w.now
    && !Active(w.acts[0])
  }

  lemma Follow(ls: seq<Label>, n: nat, w: World, w': World)
    requires n < |ls| && Reaches(ls[..n], w) && Steps(w, ls[n], w')
    ensures Reaches(ls[..n + 1], w')
  {
    Extend(ls[..n], w, ls[n]);
    assert ls[..n + 1] == ls[..n] + [ls[n]];
  }

  lemma SameStart(cfg: Config, ev: Event)
    ensures TwoRun(cfg, ev)[..2] == LossRun(cfg, ev)[..2]
  {
  }

  lemma ReachClaimed(cfg: Config, ev: Event)
    requires ValidConfig(cfg)
    ensures Reaches(TwoRun(cfg, ev)[..3], Held(cfg, ev, Leased, Claimed(cfg, ev), 1, 1))
  {
    var w := LossRead(cfg, ev);
    SameStart(cfg, ev);
    ToClaimed(cfg, ev);
    Follow(TwoRun(cfg, ev), 2, w, Held(cfg, ev, Leased, Claimed(cfg, ev), 1, 1));
  }

  lemma ReachStarting(cfg: Config, ev: Event)
    requires ValidConfig(cfg)
    ensures Reaches(TwoRun(cfg, ev)[..5], Held(cfg, ev, Starting, Claimed(cfg, ev), 1, 1))
  {
    ReachClaimed(cfg, ev);
    ToStarting(cfg, ev);
    Follow(TwoRun(cfg, ev), 3, Held(cfg, ev, Leased, Claimed(cfg, ev), 1, 1), Held(cfg, ev, Missing, Claimed(cfg, ev), 1, 1));
    Follow(TwoRun(cfg, ev), 4, Held(cfg, ev, Missing, Claimed(cfg, ev), 1, 1), Held(cfg, ev, Starting, Claimed(cfg, ev), 1, 1));
  }

  lemma ReachStarted(cfg: Config, ev: Event)
    requires ValidConfig(cfg)
    ensures Reaches(TwoRun(cfg, ev)[..6], Held(cfg, ev, Armed(1), Started(cfg, ev), 2, 2))
  {
    ReachStarting(cfg, ev);
    ToStarted(cfg, ev);
    Follow(TwoRun(cfg, ev), 5, Held(cfg, ev, Starting, Claimed(cfg, ev), 1, 1), Held(cfg, ev, Armed(1), Started(cfg, ev), 2, 2));
  }

  lemma ReachReturned(cfg: Config, ev: Event)
    requires ValidConfig(cfg)
    ensures Reaches(TwoRun(cfg, ev)[..8], Running2(cfg, ev, Saving(1, FAILED), Started(cfg, ev), 2))
  {
    ReachStarted(cfg, ev);
    ToReturned(cfg, ev);
    Follow(TwoRun(cfg, ev), 6, Held(cfg, ev, Armed(1), Started(cfg, ev), 2, 2), Running2(cfg, ev, Calling(1), Started(cfg, ev), 2));
    Follow(TwoRun(cfg, ev), 7, Running2(cfg, ev, Calling(1), Started(cfg, ev), 2), Running2(cfg, ev, Saving(1, FAILED), Started(cfg, ev), 2));
  }

  lemma ReachMarked(cfg: Config, ev: Event)
    requires ValidConfig(cfg)
    ensures Reaches(TwoRun(cfg, ev)[..10], Saved1(cfg, ev, Loop(1, FAILED, 0), Marked(cfg, ev), 3))
  {
    ReachReturned(cfg, ev);
    ToSaved(cfg, ev);
    ToMarked(cfg, ev);
    Follow(TwoRun(cfg, ev), 8, Running2(cfg, ev, Saving(1, FAILED), Started(cfg, ev), 2), Saved1(cfg, ev, Marking(1, FAILED), Started(cfg, ev), 2));
    Follow(TwoRun(cfg, ev), 9, Saved1(cfg, ev, Marking(1, FAILED), Started(cfg, ev), 2), Saved1(cfg, ev, Loop(1, FAILED, 0), Marked(cfg, ev), 3));
  }

  lemma ReachClosing(cfg: Config, ev: Event)
    requires ValidConfig(cfg) && cfg.maxAttempts >= 2
    ensures Reaches(TwoRun(cfg, ev)[..11], Saved1(cfg, ev, Closing(1, FAILED, true), Marked(cfg, ev), 3))
  {
    ReachMarked(cfg, ev);
    ToClosing(cfg, ev);
    Follow(TwoRun(cfg, ev), 10, Saved1(cfg, ev, Loop(1, FAILED, 0), Marked(cfg, ev), 3), Saved1(cfg, ev, Closing(1, FAILED, true), Marked(cfg, ev), 3));
  }

  lemma ReachRefused(cfg: Config, ev: Event)
    requires ValidConfig(cfg) && cfg.maxAttempts >= 2
    ensures Reaches(TwoRun(cfg, ev)[..12], Refused(cfg, ev))
  {
    ReachClosing(cfg, ev);
    ToRefused(cfg, ev);
    Follow(TwoRun(cfg, ev), 11, Saved1(cfg, ev, Closing(1, FAILED, true), Marked(cfg, ev), 3), Refused(cfg, ev));
  }

  lemma ReachLanded(cfg: Config, ev: Event)
    requires ValidConfig(cfg) && cfg.maxAttempts >= 2
    ensures Reaches(TwoRun(cfg, ev)[..13], Landed(cfg, ev))
  {
    ReachRefused(cfg, ev);
    ToLanded(cfg, ev);
    Follow(TwoRun(cfg, ev), 12, Refused(cfg, ev), Landed(cfg, ev));
  }

  function SeenSecond(cfg: Config, ev: Event): World {
    Second(cfg, ev, Act(1, cfg, ev, Seen(Some(Record(Waiting(cfg, ev), 4)), 1), None, None))
  }

  lemma ReachSeen(cfg: Config, ev: Event)
    requires ValidConfig(cfg) && cfg.maxAttempts >= 2
    ensures Reaches(TwoRun(cfg, ev)[..15], SeenSecond(cfg, ev))
  {
    ReachLanded(cfg, ev);
    ToSeen(cfg, ev);
    Follow(TwoRun(cfg, ev), 13, Landed(cfg, ev), Second(cfg, ev, Act(1, cfg, ev, Delivered, None, None)));
    Follow(TwoRun(cfg, ev), 14, Second(cfg, ev, Act(1, cfg, ev, Delivered, None, None)), SeenSecond(cfg, ev));
  }

  /** Counting handles of deliveries that have returned, two may look unexpired at once. */
  lemma TwoUnexpiredHandles(cfg: Config, ev: Event)
    requires ValidConfig(cfg) && cfg.maxAttempts >= 2
    ensures Runs(INITIAL, TwoRun(cfg, ev)) && TwoHolders(Final(INITIAL, TwoRun(cfg, ev)))
  {
    ReachSeen(cfg, ev);
    SecondClaims(cfg, ev);
    Follow(TwoRun(cfg, ev), 15, SeenSecond(cfg, ev), Apply(SeenSecond(cfg, ev), Cas(1, ClaimAs(cfg, ev, 2), Good)));
    assert TwoRun(cfg, ev)[..16] == TwoRun(cfg, ev);
  }
}
