/** Which responses of a browser's navigation become tasks: each endpoint once, and none left out
    (cmd/httpx/browser.go). */
module RedirectTasks {
  import opened Wrappers
  import opened Events
  import opened Text
  import opened Decimal
  import opened Hosts
  import opened Urls
  import opened Redirect

  /** The response is from the endpoint this run was asked for. */
  predicate Requested(input: Event, s: Sight) {
    s.same && input.target.host == s.target.host
  }

  predicate SameEndpoint(a: Target, b: Target) {
    a.host + "/" + a.url == b.host + "/" + b.url
  }

  /** The task for a response `depth` redirects into the tree. */
  predicate TaskFor(input: Event, t: Target, depth: nat, ev: Event) {
    && ev.kind == KIND_URL && ev.value == t.url && ev.target == t && (ev.tls <==> "https://" <= t.url)
    && "redirect_depth" in ev.meta && ev.meta["redirect_depth"] == Itoa(depth)
  }

  /** Response i can become a task: it is a redirect, its peer is known, and it is within the limit. */
  predicate Counts(input: Event, sights: seq<Option<Sight>>, depth: nat, limit: int, i: int) {
    0 < i < |sights| && sights[i].Some? && depth + i <= limit && !Requested(input, sights[i].value)
  }

  ghost predicate FromSight(input: Event, sights: seq<Option<Sight>>, depth: nat, limit: int, ev: Event) {
    exists i :: Counts(input, sights, depth, limit, i) && TaskFor(input, sights[i].value.target, depth + i, ev)
  }

  predicate TaskAt(out: seq<Event>, t: Target) {
    exists ev :: ev in out && SameEndpoint(ev.target, t)
  }

  predicate EachOnce(out: seq<Event>) {
    forall j, k :: 0 <= j < k < |out| ==> !SameEndpoint(out[j].target, out[k].target)
  }

  /** A response whose peer is known lies beyond the limit. */
  ghost predicate Overrun(sights: seq<Option<Sight>>, depth: nat, limit: int) {
    exists i :: 0 < i < |sights| && sights[i].Some? && depth + i > limit
  }

  lemma {:induction false} SeenAre(input: Event, sights: seq<Option<Sight>>, depth: nat, limit: int)
    ensures var w := WalkTo(input, sights, depth, limit);
      && (forall key :: key in w.seen <==> exists ev :: ev in w.out && KeyOf(ev.target) == key)
      && (w.stopped <==> Overrun(sights, depth, limit)) && (LimitExceeded in w.problems <==> w.stopped)
  {
    if sights != [] {
      var n := |sights| - 1;
      SeenAre(input, sights[..n], depth, limit);
      OverrunNext(sights, depth, limit);
    }
  }

  lemma OverrunNext(sights: seq<Option<Sight>>, depth: nat, limit: int)
    requires sights != []
    ensures var n := |sights| - 1;
      Overrun(sights, depth, limit) <==> Overrun(sights[..n], depth, limit) || (n > 0 && sights[n].Some? && depth + n > limit)
  {
    var n := |sights| - 1;
    if Overrun(sights[..n], depth, limit) {
      var i :| 0 < i < n && sights[..n][i].Some? && depth + i > limit;
      assert sights[i].Some?;
    }
    if Overrun(sights, depth, limit) {
      var i :| 0 < i < |sights| && sights[i].Some? && depth + i > limit;
      if i < n { assert sights[..n][i].Some?; }
    }
  }

  lemma CountsPrefix(input: Event, sights: seq<Option<Sight>>, depth: nat, limit: int, n: nat, i: int)
    requires n <= |sights|
    ensures Counts(input, sights[..n], depth, limit, i) <==> Counts(input, sights, depth, limit, i) && i < n
  {
  }

  /** Every task is for a response, and no endpoint gets two. */
  lemma {:induction false} TasksAreSights(input: Event, sights: seq<Option<Sight>>, depth: nat, limit: int)
    ensures var out := WalkTo(input, sights, depth, limit).out;
      EachOnce(out) && forall ev :: ev in out ==> FromSight(input, sights, depth, limit, ev)
  {
    if sights != [] {
      var n := |sights| - 1;
      var w := WalkTo(input, sights[..n], depth, limit);
      TasksAreSights(input, sights[..n], depth, limit);
      SeenAre(input, sights[..n], depth, limit);
      forall ev | ev in w.out ensures FromSight(input, sights, depth, limit, ev) {
        var i :| Counts(input, sights[..n], depth, limit, i) && TaskFor(input, sights[..n][i].value.target, depth + i, ev);
        CountsPrefix(input, sights, depth, limit, n, i);
      }
      VisitOut(input, sights[n], n, depth, limit, w);
      if Emits(input, sights[n], n, depth, limit, w) {
        assert Counts(input, sights, depth, limit, n);
        assert TaskFor(input, sights[n].value.target, depth + n, Redirected(input, sights[n].value.target, depth + n));
      }
    }
  }

  /** And every response that counts has one. */
  lemma {:induction false} SightsAreTasks(input: Event, sights: seq<Option<Sight>>, depth: nat, limit: int, i: nat)
    requires Counts(input, sights, depth, limit, i)
    ensures TaskAt(WalkTo(input, sights, depth, limit).out, sights[i].value.target)
    decreases |sights|
  {
    var n := |sights| - 1;
    var w := WalkTo(input, sights[..n], depth, limit);
    SeenAre(input, sights[..n], depth, limit);
    VisitOut(input, sights[n], n, depth, limit, w);
    if i < n {
      CountsPrefix(input, sights, depth, limit, n, i);
      SightsAreTasks(input, sights[..n], depth, limit, i);
      var ev :| ev in w.out && SameEndpoint(ev.target, sights[i].value.target);
      assert ev in WalkTo(input, sights, depth, limit).out;
    } else {
      NotStopped(sights, depth, limit);
      var t := sights[n].value.target;
      if KeyOf(t) in w.seen {
        var ev :| ev in w.out && KeyOf(ev.target) == KeyOf(t);
        assert ev in WalkTo(input, sights, depth, limit).out;
      } else {
        var ev := Redirected(input, t, depth + n);
        assert ev in WalkTo(input, sights, depth, limit).out && SameEndpoint(ev.target, t);
      }
    }
  }

  lemma NotStopped(sights: seq<Option<Sight>>, depth: nat, limit: int)
    requires sights != [] && depth + |sights| - 1 <= limit
    ensures !Overrun(sights[..|sights| - 1], depth, limit)
  {
  }

  /** One chain: each endpoint it was redirected to within the limit becomes exactly one task, the endpoint
      it was asked for becomes none, and whether the limit was hit is reported. */
  lemma ChainExactly(input: Event, sights: seq<Option<Sight>>, depth: nat, limit: int)
    ensures var w := WalkTo(input, sights, depth, limit);
      && EachOnce(w.out)
      && (forall ev :: ev in w.out ==> FromSight(input, sights, depth, limit, ev))
      && (forall i :: Counts(input, sights, depth, limit, i) ==> TaskAt(w.out, sights[i].value.target))
      && (LimitExceeded in w.problems <==> Overrun(sights, depth, limit))
  {
    TasksAreSights(input, sights, depth, limit);
    SeenAre(input, sights, depth, limit);
    forall i | Counts(input, sights, depth, limit, i) ensures TaskAt(WalkTo(input, sights, depth, limit).out, sights[i].value.target) {
      SightsAreTasks(input, sights, depth, limit, i);
    }
  }

  /** The first response is checked against what was asked for, whatever comes after it. */
  lemma {:induction false} MismatchIff(input: Event, sights: seq<Option<Sight>>, depth: nat, limit: int)
    ensures InitialMismatch in WalkTo(input, sights, depth, limit).problems <==>
      && sights != [] && sights[0].Some?
      && !(sights[0].value.same && input.target.host in {"", sights[0].value.target.host})
  {
    if sights != [] {
      var n := |sights| - 1;
      MismatchIff(input, sights[..n], depth, limit);
      if n == 0 { assert sights[..0] == []; } else { assert sights[..n][0] == sights[0]; }
    }
  }

  /** How deep a task is: what its metadata say, or zero; nothing else is read. */
  lemma DepthIs(ev: Event)
    ensures RedirectDepth(ev) ==
      if "redirect_depth" !in ev.meta || ev.meta["redirect_depth"] == "" then Some(0)
      else if Atoi(ev.meta["redirect_depth"]).None? || Atoi(ev.meta["redirect_depth"]).value < 0 then None
      else Some(Atoi(ev.meta["redirect_depth"]).value as nat)
  {
  }

  /** The browser is started for a URL with a host, at a depth within the limit. */
  lemma ScanIff(net: Net, input: Event, capture: Capture, limit: int)
    ensures ScanOut(net, input, Some(capture), limit) ==
      if Parse(net, input.value).Some? && Parse(net, input.value).value.host != "" && RedirectDepth(input).Some? && RedirectDepth(input).value <= limit
      then BrowserEvents(net, input, capture, limit).0 else []
  {
  }

  /** A response is believed when its peer is an address and the URL names no other address and no other
      port. */
  lemma PeerIff(net: Net, hop: Hop)
    ensures HopTarget(net, hop).Some? <==>
      && URLTarget(net, hop.url).Some? && net.parse(TrimSpace(hop.host)).Some?
      && URLTarget(net, hop.url).value.host in {"", net.parse(TrimSpace(hop.host)).value}
      && URLTarget(net, hop.url).value.port == hop.port
    ensures HopTarget(net, hop).Some? ==>
      && CanonIP(net, hop.host) == Some(HopTarget(net, hop).value.host) && HopTarget(net, hop).value.port == hop.port
      && CanonURL(net, hop.url) == Some(HopTarget(net, hop).value.url)
  {
  }

  // ---------------------------------------------------------------- what a URL comparison looks at

  predicate PathText(s: string) {
    '?' !in s && '#' !in s
  }

  lemma {:induction false} PathEnds(path: string, tail: string)
    requires PathText(path) && (tail == "" || tail[0] == '?' || tail[0] == '#')
    ensures PathLength(path + tail) == |path|
    decreases |path|
  {
    var s := path + tail;
    if path != "" {
      assert s[0] == path[0] && s[1..] == path[1..] + tail;
      assert path[0] in path && forall c :: c in path[1..] ==> c in path;
      PathEnds(path[1..], tail);
    }
  }

  lemma {:induction false} QueryEnds(query: string, tail: string)
    requires '#' !in query && (tail == "" || tail[0] == '#')
    ensures QueryLength(query + tail) == |query|
    decreases |query|
  {
    var s := query + tail;
    if query != "" {
      assert s[0] == query[0] && s[1..] == query[1..] + tail;
      assert query[0] in query && forall c :: c in query[1..] ==> c in query;
      QueryEnds(query[1..], tail);
    }
  }

  /** Path and query of a URL's remainder: an absent path reads as the root, and the fragment is no part of
      either. */
  lemma PathAndQuery(path: string, query: string, fragment: string)
    requires PathText(path) && '#' !in query && (fragment == "" || fragment[0] == '#')
    ensures Path(path + ("?" + query + fragment)) == (if path == "" then "/" else path) && Query(path + ("?" + query + fragment)) == query
    ensures Path(path + fragment) == (if path == "" then "/" else path) && Query(path + fragment) == ""
  {
    var tail := "?" + query + fragment;
    PathEnds(path, tail);
    QueryEnds(query, fragment);
    assert (path + tail)[..|path|] == path && (path + tail)[|path|..] == tail && tail[1..] == query + fragment;
    assert (query + fragment)[..|query|] == query;
    PathEnds(path, fragment);
    assert (path + fragment)[..|path|] == path && (path + fragment)[|path|..] == fragment;
  }

  // ---------------------------------------------------------------- the screenshot

  predicate SameSite(net: Net, a: string, b: string) {
    && Parse(net, TrimSpace(a)).Some? && Parse(net, TrimSpace(b)).Some?
    && Lower(Parse(net, TrimSpace(a)).value.authority) == Lower(Parse(net, TrimSpace(b)).value.authority)
    && Parse(net, TrimSpace(a)).value.scheme == Parse(net, TrimSpace(b)).value.scheme
  }

  predicate Shown(net: Net, capture: Capture) {
    && capture.hops != [] && HopTarget(net, capture.hops[|capture.hops| - 1]).Some?
    && (capture.png ==> URLTarget(net, capture.url).Some? && SameSite(net, capture.hops[|capture.hops| - 1].url, capture.url))
  }

  lemma NotShown(net: Net, input: Event, capture: Capture, w: Walk)
    requires !Shown(net, capture)
    ensures Finish(net, input, capture, w).0 == w.out
  {
  }

  lemma ShownPlain(net: Net, input: Event, capture: Capture, w: Walk)
    requires Shown(net, capture) && !capture.png
    ensures ShotFirst(net, capture, w.out, Finish(net, input, capture, w).0)
  {
    PeerIff(net, capture.hops[|capture.hops| - 1]);
  }

  lemma ImageFirst(net: Net, input: Event, capture: Capture, w: Walk, peer: Target, final: Target)
    requires Shown(net, capture) && capture.png && HopTarget(net, capture.hops[|capture.hops| - 1]) == Some(peer)
    requires final == URLTarget(net, capture.url).value.(host := peer.host)
    ensures var last := capture.hops[|capture.hops| - 1];
      Finish(net, input, capture, w).0 == [Shot(input, capture.url, final)] + Relocated(w.out, last.url, peer.host, capture.url, final)
  {
  }

  lemma ShiftedAll(net: Net, capture: Capture, tasks: seq<Event>, peer: Target, final: Target)
    requires Shown(net, capture) && capture.png && final.host == peer.host
    requires CanonIP(net, capture.hops[|capture.hops| - 1].host) == Some(peer.host)
    ensures var last := capture.hops[|capture.hops| - 1];
      forall j :: 0 <= j < |tasks| ==> Shifted(net, capture, tasks[j], Relocated(tasks, last.url, peer.host, capture.url, final)[j])
  {
  }

  lemma ShownImage(net: Net, input: Event, capture: Capture, w: Walk)
    requires Shown(net, capture) && capture.png
    ensures ShotFirst(net, capture, w.out, Finish(net, input, capture, w).0)
  {
    var last := capture.hops[|capture.hops| - 1];
    var peer := HopTarget(net, last).value;
    PeerIff(net, last);
    var final := URLTarget(net, capture.url).value.(host := peer.host);
    ImageFirst(net, input, capture, w, peer, final);
    ShiftedAll(net, capture, w.out, peer, final);
    var moved := Relocated(w.out, last.url, peer.host, capture.url, final);
    assert forall j :: 0 <= j < |moved| ==> ([Shot(input, capture.url, final)] + moved)[j + 1] == moved[j];
  }

  /** The screenshot comes first, under the address bar's URL or, without an image, under that of the last
      response. */
  predicate ShotFirst(net: Net, capture: Capture, tasks: seq<Event>, out: seq<Event>)
    requires Shown(net, capture)
  {
    && |out| == |tasks| + 1 && out[0].kind == KIND_SCREENSHOT
    && out[0].value == (if capture.png then capture.url else capture.hops[|capture.hops| - 1].url)
    && CanonIP(net, capture.hops[|capture.hops| - 1].host) == Some(out[0].target.host)
    && forall j :: 0 <= j < |tasks| ==> Shifted(net, capture, tasks[j], out[j + 1])
  }

  /** A run reports a screenshot exactly when the last response is believed and an image, if there is one,
      still shows that response's site. */
  lemma ShotIff(net: Net, input: Event, capture: Capture, limit: int)
    requires RedirectDepth(input).Some?
    ensures var out := BrowserEvents(net, input, capture, limit).0;
      var tasks := WalkTo(input, Sights(net, input, capture.hops), RedirectDepth(input).value, limit).out;
      if Shown(net, capture) then ShotFirst(net, capture, tasks, out) else out == tasks
  {
    var w := WalkTo(input, Sights(net, input, capture.hops), RedirectDepth(input).value, limit);
    if !Shown(net, capture) {
      NotShown(net, input, capture, w);
    } else if capture.png {
      ShownImage(net, input, capture, w);
    } else {
      ShownPlain(net, input, capture, w);
    }
  }

  /** The task for the last response moves to the address bar, if there is an image; no other task changes. */
  predicate Shifted(net: Net, capture: Capture, task: Event, task': Event)
    requires Shown(net, capture)
  {
    var last := capture.hops[|capture.hops| - 1];
    if capture.png && task.value == last.url && CanonIP(net, last.host) == Some(task.target.host)
    then task'.value == capture.url && task'.target.host == task.target.host && task'.meta == task.meta && task'.kind == task.kind
    else task' == task
  }
}
