/** No lost work in the whole deployment: a message is acknowledged for a worker only when that worker's task
    is durably terminal. */
module ClusterAcks {
  import opened Events
  import opened Work
  import opened WorkAcks
  import opened Registry
  import opened TaskSteps
  import opened Cluster

  /** In this move no lease or backoff lapses between claim's two clock readings. */
  predicate TightMove(s: System, m: Move) {
    m.Advance? ==> Tight(WorldOf(s, m.key), m.l)
  }

  predicate TightHistory(s: System, ms: seq<Move>)
    requires Cluster.Runs(s, ms)
    decreases |ms|
  {
    ms == [] || (TightMove(s, ms[0]) && TightHistory(Take(s, ms[0]), ms[1..]))
  }

  ghost predicate AcksFit(s: System) {
    forall k :: k in s.worlds ==> AcksOk(s.worlds[k])
  }

  lemma CaughtUpAcks(w: World, now: nat, nuid: Id, seqNo: nat)
    requires AcksOk(w)
    ensures AcksOk(CaughtUp(w, now, nuid, seqNo))
  {
  }

  lemma WorldAcks(s: System, k: WorkKey)
    requires AcksFit(s)
    ensures AcksOk(WorldOf(s, k))
  {
  }

  lemma TaskAcks(s: System, m: Move)
    requires Coherent(s) && AcksFit(s) && Allowed(s, m) && m.Advance? && TightMove(s, m)
    ensures Enabled(WorldOf(s, m.key), m.l) && AcksOk(Apply(WorldOf(s, m.key), m.l))
  {
    WorldFits(s, m.key);
    WorldAcks(s, m.key);
    AllowedEnabled(s, m.key, m.l, m.tool, m.seen);
    ReachedInv(WorldOf(s, m.key));
    AcksStep(WorldOf(s, m.key), m.l);
  }

  lemma SettledAcks(s: System, key: WorkKey, w: World)
    requires AcksFit(s) && AcksOk(w)
    ensures forall k :: k in Settled(s, key, w) ==> AcksOk(Settled(s, key, w)[k])
  {
    forall k | k in s.worlds ensures AcksOk(CaughtUp(s.worlds[k], w.now, w.nuid, w.seqNo)) {
      CaughtUpAcks(s.worlds[k], w.now, w.nuid, w.seqNo);
    }
  }

  lemma AcksMove(s: System, m: Move)
    requires Coherent(s) && AcksFit(s) && Allowed(s, m) && TightMove(s, m)
    ensures AcksFit(Take(s, m))
  {
    if m.Advance? {
      TaskAcks(s, m);
      SettledAcks(s, m.key, Apply(WorldOf(s, m.key), m.l));
    } else if m.Wait? {
      forall k | k in s.worlds ensures AcksOk(CaughtUp(s.worlds[k], m.now, s.nuid, s.seqNo)) {
        CaughtUpAcks(s.worlds[k], m.now, s.nuid, s.seqNo);
      }
    }
  }

  lemma {:induction false} AcksHistory(s: System, ms: seq<Move>)
    requires Coherent(s) && AcksFit(s) && Cluster.Runs(s, ms) && TightHistory(s, ms)
    ensures AcksFit(Cluster.Final(s, ms))
    decreases |ms|
  {
    if ms != [] {
      AcksMove(s, ms[0]);
      CoherentStep(s, ms[0]);
      AcksHistory(Take(s, ms[0]), ms[1..]);
    }
  }

  lemma StartFits()
    ensures Coherent(START) && AcksFit(START)
  {
  }

  /** In every history of the deployment in which no lease or backoff lapses between claim's two clock
      readings: a message that a worker is eligible for is acknowledged by it only when its task for that
      event is completed or failed. */
  lemma NoWorkLost(ms: seq<Move>, tool: Contract, ev: Event, msg: nat)
    requires Cluster.Runs(START, ms) && TightHistory(START, ms)
    requires var s := Cluster.Final(START, ms); WorkKeyOf(tool, ev) in s.worlds && msg in s.worlds[WorkKeyOf(tool, ev)].acked
    ensures var r := RecordAt(Cluster.Final(START, ms), WorkKeyOf(tool, ev)); r.Some? && Terminal(r.value.task)
  {
    StartFits();
    AcksHistory(START, ms);
  }
}
