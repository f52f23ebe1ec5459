/** Redirect discovery in the screenshot worker (cmd/httpx/browser.go, cmd/httpx/scan.go): which URL tasks
    one run adds, and how large the tree of runs can get. */
module Redirect {
  import opened Wrappers
  import opened Text
  import opened Decimal
  import opened Events
  import opened Hosts
  import opened Urls

  const DEPTH_KEY := "redirect_depth"

  /** One response of the browser's navigation. */
  datatype Hop = Hop(url: string, host: string, port: int)

  /** What the browser returns: its document responses, the final address bar, and the image (`png`:
      some image bytes; `valid`: they decode). */
  datatype Capture = Capture(hops: seq<Hop>, url: string, png: bool, valid: bool)

  datatype Problem =
    | BadDepth | LimitExceeded | NoPeer(hop: nat) | InitialMismatch | NoScreenshot | BadURL | AuthorityDiffers | BadImage

  /** redirectDepth: absent means zero. */
  function RedirectDepth(ev: Event): Option<nat> {
    var s := Lookup(ev.meta, DEPTH_KEY);
    if s == "" then Some(0)
    else if Atoi(s).None? || Atoi(s).value < 0 then None
    else Some(Atoi(s).value)
  }

  function HopTarget(net: Net, hop: Hop): Option<Target> {
    var t := URLTarget(net, hop.url);
    var ip := CanonIP(net, hop.host);
    if t.None? || ip.None? then None
    else if (t.value.host != "" && t.value.host != ip.value) || t.value.port != hop.port then None
    else Some(t.value.(host := ip.value))
  }

  // ---------------------------------------------------------------- equal URLs

  function PathLength(s: string): (n: nat)
    ensures n <= |s|
  {
    if s == "" || s[0] == '?' || s[0] == '#' then 0 else 1 + PathLength(s[1..])
  }

  function QueryLength(s: string): (n: nat)
    ensures n <= |s|
  {
    if s == "" || s[0] == '#' then 0 else 1 + QueryLength(s[1..])
  }

  function Path(rest: string): string {
    var p := rest[..PathLength(rest)];
    if p == "" then "/" else p
  }

  function Query(rest: string): string {
    var q := rest[PathLength(rest)..];
    if q != "" && q[0] == '?' then q[1..][..QueryLength(q[1..])] else ""
  }

  /** sameURL: the fragment does not matter. */
  predicate SameURL(net: Net, a: string, b: string) {
    var x, y := URLTarget(net, a), URLTarget(net, b);
    && x.Some? && y.Some? && Parse(net, TrimSpace(a)).Some? && Parse(net, TrimSpace(b)).Some?
    && var u, v := Parse(net, TrimSpace(a)).value, Parse(net, TrimSpace(b)).value;
       && u.scheme == v.scheme && Lower(u.host) == Lower(v.host) && x.value.port == y.value.port
       && Path(u.rest) == Path(v.rest) && Query(u.rest) == Query(v.rest)
  }

  // ---------------------------------------------------------------- the hops

  /** A response as this run sees it: its endpoint, and whether its URL is the one that was asked for. */
  datatype Sight = Sight(target: Target, same: bool)

  function See(net: Net, input: Event, hop: Hop): Option<Sight> {
    var t := HopTarget(net, hop);
    if t.None? then None else Some(Sight(t.value, SameURL(net, input.value, hop.url)))
  }

  function Sights(net: Net, input: Event, hops: seq<Hop>): (s: seq<Option<Sight>>)
    ensures |s| == |hops| && forall i :: 0 <= i < |hops| ==> s[i] == See(net, input, hops[i])
  {
    seq(|hops|, i requires 0 <= i < |hops| => See(net, input, hops[i]))
  }

  datatype Walk = Walk(out: seq<Event>, problems: seq<Problem>, seen: set<string>, stopped: bool)

  const START := Walk([], [], {}, false)

  function KeyOf(t: Target): string {
    t.host + "/" + t.url
  }

  function Redirected(input: Event, target: Target, depth: nat): Event {
    Event(SCHEMA_VERSION, "", "", "", KIND_URL, target.url, "", "", target, None, "browser-redirect", "", Tls(target.url),
          map["initial_url" := input.value, "endpoint_evidence" := "browser_document"], map[DEPTH_KEY := Itoa(depth)])
  }

  /** The first response is the requested endpoint itself. */
  predicate Establishes(input: Event, s: Sight) {
    s.same && (input.target.host == "" || input.target.host == s.target.host)
  }

  predicate Known(input: Event, s: Sight, seen: set<string>) {
    KeyOf(s.target) in seen || (s.same && input.target.host == s.target.host)
  }

  /** One turn of the loop over hops. */
  function Visit(input: Event, sight: Option<Sight>, i: nat, depth: nat, limit: int, w: Walk): Walk {
    if w.stopped then w
    else if sight.None? then w.(problems := w.problems + [NoPeer(i)])
    else if i == 0 then
      if Establishes(input, sight.value) then w else w.(problems := w.problems + [InitialMismatch])
    else if depth + i > limit then w.(problems := w.problems + [LimitExceeded], stopped := true)
    else if Known(input, sight.value, w.seen) then w
    else w.(seen := w.seen + {KeyOf(sight.value.target)}, out := w.out + [Redirected(input, sight.value.target, depth + i)])
  }

  function WalkTo(input: Event, sights: seq<Option<Sight>>, depth: nat, limit: int): Walk {
    if sights == [] then START
    else
      var n := |sights| - 1;
      Visit(input, sights[n], n, depth, limit, WalkTo(input, sights[..n], depth, limit))
  }

  lemma {:induction false} StoppedStays(input: Event, sights: seq<Option<Sight>>, n: nat, depth: nat, limit: int)
    requires n <= |sights| && WalkTo(input, sights[..n], depth, limit).stopped
    ensures WalkTo(input, sights, depth, limit) == WalkTo(input, sights[..n], depth, limit)
    decreases |sights|
  {
    if n < |sights| {
      assert sights[..|sights| - 1][..n] == sights[..n];
      StoppedStays(input, sights[..|sights| - 1], n, depth, limit);
    } else {
      assert sights[..n] == sights;
    }
  }

  lemma WalkNext(input: Event, sights: seq<Option<Sight>>, i: nat, depth: nat, limit: int)
    requires i < |sights|
    ensures WalkTo(input, sights[..i + 1], depth, limit) == Visit(input, sights[i], i, depth, limit, WalkTo(input, sights[..i], depth, limit))
  {
    assert sights[..i + 1][..i] == sights[..i];
  }

  /** The loop as written, with its early exit. */
  method WalkSights(input: Event, sights: seq<Option<Sight>>, depth: nat, limit: int) returns (out: seq<Event>, problems: seq<Problem>)
    ensures var w := WalkTo(input, sights, depth, limit); out == w.out && problems == w.problems
  {
    out, problems := [], [];
    var seen: set<string> := {};
    var i := 0;
    while i < |sights|
      invariant 0 <= i <= |sights| && WalkTo(input, sights[..i], depth, limit) == Walk(out, problems, seen, false)
    {
      WalkNext(input, sights, i, depth, limit);
      var sight := sights[i];
      if sight.None? {
        problems := problems + [NoPeer(i)];
      } else if i == 0 {
        if !Establishes(input, sight.value) {
          problems := problems + [InitialMismatch];
        }
      } else if depth + i > limit {
        problems := problems + [LimitExceeded];
        StoppedStays(input, sights, i + 1, depth, limit);
        return;
      } else if !Known(input, sight.value, seen) {
        seen := seen + {KeyOf(sight.value.target)};
        out := out + [Redirected(input, sight.value.target, depth + i)];
      }
      i := i + 1;
    }
    assert sights[..i] == sights;
  }

  // ---------------------------------------------------------------- depths

  predicate At(ev: Event, d: nat) {
    RedirectDepth(ev) == Some(d)
  }

  /** URL tasks at these depths, one each. */
  predicate Depths(out: seq<Event>, ds: seq<nat>) {
    |out| == |ds| && forall j :: 0 <= j < |out| ==> out[j].kind == KIND_URL && At(out[j], ds[j])
  }

  /** Strictly increasing, all beyond `depth` and at most `bound`. */
  predicate Deeper(ds: seq<nat>, depth: nat, bound: int) {
    && (forall j :: 0 <= j < |ds| ==> depth < ds[j] <= bound)
    && (forall j, k :: 0 <= j < k < |ds| ==> ds[j] < ds[k])
  }

  lemma RedirectedDepth(input: Event, t: Target, depth: nat)
    requires depth <= MAX_INT
    ensures At(Redirected(input, t, depth), depth) && Redirected(input, t, depth).kind == KIND_URL
  {
    AtoiItoa(depth);
    ItoaNonempty(depth);
  }

  predicate Emits(input: Event, sight: Option<Sight>, i: nat, depth: nat, limit: int, w: Walk) {
    !w.stopped && sight.Some? && i > 0 && depth + i <= limit && !Known(input, sight.value, w.seen)
  }

  lemma VisitOut(input: Event, sight: Option<Sight>, i: nat, depth: nat, limit: int, w: Walk)
    ensures Visit(input, sight, i, depth, limit, w).out
         == if Emits(input, sight, i, depth, limit, w) then w.out + [Redirected(input, sight.value.target, depth + i)] else w.out
  {
  }

  lemma DepthsSnoc(out: seq<Event>, ds: seq<nat>, ev: Event, d: nat, depth: nat, limit: int)
    requires Depths(out, ds) && Deeper(ds, depth, limit) && ev.kind == KIND_URL && At(ev, d) && depth < d <= limit
    requires forall j :: 0 <= j < |ds| ==> ds[j] < d
    ensures Depths(out + [ev], ds + [d]) && Deeper(ds + [d], depth, limit)
  {
  }

  /** Hop i leads to depth + i: depths grow along the chain, and stay within the limit. */
  lemma {:induction false} WalkDepths(input: Event, sights: seq<Option<Sight>>, depth: nat, limit: int) returns (ds: seq<nat>)
    requires limit <= MAX_INT
    ensures Depths(WalkTo(input, sights, depth, limit).out, ds)
    ensures Deeper(ds, depth, limit) && forall j :: 0 <= j < |ds| ==> ds[j] < depth + |sights|
    decreases |sights|
  {
    ds := [];
    if sights != [] {
      var n := |sights| - 1;
      ds := WalkDepths(input, sights[..n], depth, limit);
      var w := WalkTo(input, sights[..n], depth, limit);
      VisitOut(input, sights[n], n, depth, limit, w);
      if Emits(input, sights[n], n, depth, limit, w) {
        var ev := Redirected(input, sights[n].value.target, depth + n);
        RedirectedDepth(input, sights[n].value.target, depth + n);
        DepthsSnoc(w.out, ds, ev, depth + n, depth, limit);
        ds := ds + [depth + n];
      }
    }
  }

  // ---------------------------------------------------------------- the rest of browserEvents

  function Shot(input: Event, url: string, target: Target): Event {
    Event(SCHEMA_VERSION, "", "", "", KIND_SCREENSHOT, url, "", "", target, None, "http-screenshot", "http", Tls(target.url),
          map["initial_url" := input.value, "endpoint_evidence" := "browser_document"], map["endpoint_evidence" := "browser_document"])
  }

  predicate SameAuthority(net: Net, a: string, b: string) {
    Parse(net, TrimSpace(a)).Some? && Parse(net, TrimSpace(b)).Some? &&
    var u, v := Parse(net, TrimSpace(a)).value, Parse(net, TrimSpace(b)).value;
    Lower(u.authority) == Lower(v.authority) && u.scheme == v.scheme
  }

  /** The task for the final document gets the address bar's URL. */
  function Relocate(ev: Event, last: string, host: string, url: string, target: Target): Event {
    if ev.value == last && ev.target.host == host
    then ev.(value := url, target := target, info := ev.info["response_url" := last])
    else ev
  }

  function Relocated(out: seq<Event>, last: string, host: string, url: string, target: Target): (r: seq<Event>)
    ensures |r| == |out| && forall i :: 0 <= i < |out| ==> r[i] == Relocate(out[i], last, host, url, target)
  {
    seq(|out|, i requires 0 <= i < |out| => Relocate(out[i], last, host, url, target))
  }

  /** What the code does with the walk's tasks once the last response and the image are known. */
  function Finish(net: Net, input: Event, capture: Capture, w: Walk): (seq<Event>, seq<Problem>) {
    if capture.hops == [] then (w.out, w.problems + [NoScreenshot])
    else
      var last := capture.hops[|capture.hops| - 1];
      var target := HopTarget(net, last);
      if target.None? then (w.out, w.problems + [NoPeer(|capture.hops| - 1)])
      else if !capture.png then ([Shot(input, last.url, target.value)] + w.out, w.problems + [NoScreenshot])
      else
        var end := URLTarget(net, capture.url);
        if end.None? then (w.out, w.problems + [BadURL])
        else if !SameAuthority(net, last.url, capture.url) then (w.out, w.problems + [AuthorityDiffers])
        else
          var final := end.value.(host := target.value.host);
          ([Shot(input, capture.url, final)] + Relocated(w.out, last.url, target.value.host, capture.url, final),
           if capture.valid then w.problems else w.problems + [BadImage])
  }

  function BrowserEvents(net: Net, input: Event, capture: Capture, limit: int): (seq<Event>, seq<Problem>) {
    if RedirectDepth(input).None? then ([], [BadDepth])
    else Finish(net, input, capture, WalkTo(input, Sights(net, input, capture.hops), RedirectDepth(input).value, limit))
  }

  /** browserEvents as written. */
  method Collect(net: Net, input: Event, capture: Capture, limit: int) returns (out: seq<Event>, problems: seq<Problem>)
    ensures (out, problems) == BrowserEvents(net, input, capture, limit)
  {
    var depth := RedirectDepth(input);
    if depth.None? {
      return [], [BadDepth];
    }
    out, problems := WalkSights(input, Sights(net, input, capture.hops), depth.value, limit);
    if |capture.hops| == 0 {
      problems := problems + [NoScreenshot];
      return;
    }
    var last := capture.hops[|capture.hops| - 1];
    var target := HopTarget(net, last);
    if target.None? {
      problems := problems + [NoPeer(|capture.hops| - 1)];
      return;
    }
    if !capture.png {
      return [Shot(input, last.url, target.value)] + out, problems + [NoScreenshot];
    }
    var end := URLTarget(net, capture.url);
    if end.None? {
      problems := problems + [BadURL];
      return;
    }
    if !SameAuthority(net, last.url, capture.url) {
      problems := problems + [AuthorityDiffers];
      return;
    }
    var final := end.value.(host := target.value.host);
    out := RelocateAll(out, last.url, target.value.host, capture.url, final);
    out := [Shot(input, capture.url, final)] + out;
    if !capture.valid {
      problems := problems + [BadImage];
    }
  }

  /** The loop that edits the tasks in place. */
  method RelocateAll(out: seq<Event>, last: string, host: string, url: string, target: Target) returns (r: seq<Event>)
    ensures r == Relocated(out, last, host, url, target)
  {
    r := out;
    var i := 0;
    while i < |r|
      invariant 0 <= i <= |r| == |out|
      invariant forall j :: 0 <= j < |r| ==> r[j] == if j < i then Relocate(out[j], last, host, url, target) else out[j]
    {
      if r[i].value == last && r[i].target.host == host {
        r := r[i := r[i].(value := url, target := target, info := r[i].info["response_url" := last])];
      }
      i := i + 1;
    }
  }

  // ---------------------------------------------------------------- one run

  function Tasks(out: seq<Event>): seq<Event> {
    if out == [] then []
    else if out[0].kind == KIND_URL then [out[0]] + Tasks(out[1..]) else Tasks(out[1..])
  }

  lemma {:induction false} AllTasks(out: seq<Event>)
    requires forall j :: 0 <= j < |out| ==> out[j].kind == KIND_URL
    ensures Tasks(out) == out
  {
    if out != [] { AllTasks(out[1..]); }
  }

  lemma TasksBehindShot(shot: Event, out: seq<Event>, ds: seq<nat>)
    requires shot.kind != KIND_URL && Depths(out, ds)
    ensures Depths(Tasks([shot] + out), ds) && Depths(Tasks(out), ds)
  {
    AllTasks(out);
    assert ([shot] + out)[1..] == out;
  }

  lemma RelocatedDepths(out: seq<Event>, ds: seq<nat>, last: string, host: string, url: string, target: Target)
    requires Depths(out, ds)
    ensures Depths(Relocated(out, last, host, url, target), ds)
  {
    var r := Relocated(out, last, host, url, target);
    forall j | 0 <= j < |r| ensures r[j].kind == KIND_URL && At(r[j], ds[j]) { assert r[j].meta == out[j].meta; }
  }

  lemma ShotIsNoTask(input: Event, url: string, target: Target)
    ensures Shot(input, url, target).kind != KIND_URL
  {
    assert KIND_SCREENSHOT[0] != KIND_URL[0];
  }

  lemma FinishTasks(net: Net, input: Event, capture: Capture, w: Walk, ds: seq<nat>)
    requires Depths(w.out, ds)
    ensures Depths(Tasks(Finish(net, input, capture, w).0), ds)
  {
    var out := Finish(net, input, capture, w).0;
    if out != w.out && capture.hops != [] {
      var last := capture.hops[|capture.hops| - 1];
      var host := HopTarget(net, last).value.host;
      ShotIsNoTask(input, last.url, HopTarget(net, last).value);
      if capture.png {
        var final := URLTarget(net, capture.url).value.(host := host);
        ShotIsNoTask(input, capture.url, final);
        RelocatedDepths(w.out, ds, last.url, host, capture.url, final);
        TasksBehindShot(Shot(input, capture.url, final), Relocated(w.out, last.url, host, capture.url, final), ds);
      } else {
        TasksBehindShot(Shot(input, last.url, HopTarget(net, last).value), w.out, ds);
      }
    } else {
      AllTasks(w.out);
    }
  }

  /** scan: the entry check, then whatever the browser returned (`None`: it was never started). */
  function ScanOut(net: Net, input: Event, capture: Option<Capture>, limit: int): seq<Event> {
    var depth := RedirectDepth(input);
    if Parse(net, input.value).None? || Parse(net, input.value).value.host == "" || depth.None? || depth.value > limit || capture.None? then []
    else BrowserEvents(net, input, capture.value, limit).0
  }

  /** One run adds URL tasks at distinct depths, all strictly deeper than its own and within the limit; and
      none at all if it is beyond the limit itself. */
  lemma ScanDepths(net: Net, input: Event, capture: Option<Capture>, limit: int) returns (ds: seq<nat>)
    requires limit <= MAX_INT
    ensures Depths(Tasks(ScanOut(net, input, capture, limit)), ds)
    ensures RedirectDepth(input).Some? ==> Deeper(ds, RedirectDepth(input).value, limit)
    ensures RedirectDepth(input).None? || RedirectDepth(input).value > limit ==> ds == []
  {
    ds := [];
    if ScanOut(net, input, capture, limit) != [] {
      var sights := Sights(net, input, capture.value.hops);
      ds := WalkDepths(input, sights, RedirectDepth(input).value, limit);
      FinishTasks(net, input, capture.value, WalkTo(input, sights, RedirectDepth(input).value, limit), ds);
    }
  }

  // ---------------------------------------------------------------- the tree of runs

  /** A URL task, and the runs of the URL tasks it added. */
  datatype Run = Run(task: Event, kids: seq<Run>)

  /** A task as its worker reads it: stamping and canonical form keep the depth. */
  predicate ReadAs(published: Event, task: Event) {
    RedirectDepth(task) == RedirectDepth(published)
  }

  /** The tree was produced by the screenshot worker: one run per task. */
  ghost predicate Produced(net: Net, limit: int, r: Run)
    decreases r
  {
    && (exists capture :: Spawned(net, limit, r, capture))
    && forall j :: 0 <= j < |r.kids| ==> Produced(net, limit, r.kids[j])
  }

  ghost predicate Spawned(net: Net, limit: int, r: Run, capture: Option<Capture>) {
    var tasks := Tasks(ScanOut(net, r.task, capture, limit));
    |r.kids| == |tasks| && forall j :: 0 <= j < |tasks| ==> ReadAs(tasks[j], r.kids[j].task)
  }

  function Size(r: Run): nat
    decreases r, 1
  {
    1 + Sizes(r, |r.kids|)
  }

  /** The runs below the first n tasks. */
  function Sizes(r: Run, n: nat): nat
    requires n <= |r.kids|
    decreases r, 0, n
  {
    if n == 0 then 0 else Sizes(r, n - 1) + Size(r.kids[n - 1])
  }

  function Pow2(n: nat): nat {
    if n == 0 then 1 else 2 * Pow2(n - 1)
  }

  lemma {:induction false} Pow2Grows(a: nat, b: nat)
    requires a <= b
    ensures 1 <= Pow2(a) <= Pow2(b)
    decreases b
  {
    if a < b {
      Pow2Grows(a, b - 1);
    } else if a > 0 {
      Pow2Grows(a - 1, a - 1);
    }
  }

  /** What the runs at depths ds[n..] may add up to: less than a run just above the first of them. */
  function Weight(ds: seq<nat>, limit: nat): nat
    requires forall j :: 0 <= j < |ds| ==> ds[j] <= limit
  {
    if ds == [] then 0 else Weight(ds[..|ds| - 1], limit) + Pow2(limit - ds[|ds| - 1])
  }

  /** Distinct depths beyond d weigh less than 2^(limit - d); the unused end of the range is left over. */
  lemma {:induction false} WeightBound(ds: seq<nat>, d: nat, limit: nat)
    requires d <= limit && Deeper(ds, d, limit)
    ensures Weight(ds, limit) + Pow2(limit - (if ds == [] then d else ds[|ds| - 1])) <= Pow2(limit - d)
    decreases |ds|
  {
    if ds != [] {
      var n := |ds| - 1;
      WeightBound(ds[..n], d, limit);
      var before := if n == 0 then d else ds[n - 1];
      assert before + 1 <= ds[n];
      Pow2Grows(limit - ds[n], limit - before - 1);
      assert Pow2(limit - before) == 2 * Pow2(limit - before - 1);
    }
  }

  /** The depths in the tree, without the events: a run at depth d, its tasks at distinct depths beyond d. */
  ghost predicate Limited(limit: nat, r: Run, d: nat)
    decreases r
  {
    exists ds: seq<nat> :: Deeper(ds, d, limit) && |ds| == |r.kids| && forall j :: 0 <= j < |ds| ==> Limited(limit, r.kids[j], ds[j])
  }

  lemma {:induction false} ProducedLimited(net: Net, limit: nat, r: Run, d: nat)
    requires limit <= MAX_INT && Produced(net, limit, r) && At(r.task, d)
    ensures Limited(limit, r, d)
    decreases r
  {
    var capture :| Spawned(net, limit, r, capture);
    var ds := ScanDepths(net, r.task, capture, limit);
    var tasks := Tasks(ScanOut(net, r.task, capture, limit));
    forall j | 0 <= j < |ds| ensures Limited(limit, r.kids[j], ds[j]) {
      assert At(tasks[j], ds[j]) && ReadAs(tasks[j], r.kids[j].task);
      ProducedLimited(net, limit, r.kids[j], ds[j]);
    }
  }

  lemma WeightStep(ds: seq<nat>, limit: nat, n: nat)
    requires 0 < n <= |ds| && forall j :: 0 <= j < |ds| ==> ds[j] <= limit
    ensures Weight(ds[..n], limit) == Weight(ds[..n - 1], limit) + Pow2(limit - ds[n - 1])
  {
    assert ds[..n][..n - 1] == ds[..n - 1];
  }

  lemma {:induction false} SizesBound(limit: nat, r: Run, ds: seq<nat>, n: nat)
    requires n <= |r.kids| == |ds| && (forall j :: 0 <= j < |ds| ==> ds[j] <= limit)
    requires forall j :: 0 <= j < |ds| ==> Size(r.kids[j]) <= Pow2(limit - ds[j])
    ensures Sizes(r, n) <= Weight(ds[..n], limit)
  {
    if n > 0 {
      WeightStep(ds, limit, n);
      SizesBound(limit, r, ds, n - 1);
    }
  }

  lemma {:induction false} LimitedBound(limit: nat, r: Run, d: nat)
    requires Limited(limit, r, d) && d <= limit
    ensures Size(r) <= Pow2(limit - d)
    decreases r
  {
    var ds: seq<nat> :| Deeper(ds, d, limit) && |ds| == |r.kids| && forall j :: 0 <= j < |ds| ==> Limited(limit, r.kids[j], ds[j]);
    forall j | 0 <= j < |ds| ensures Size(r.kids[j]) <= Pow2(limit - ds[j]) {
      LimitedBound(limit, r.kids[j], ds[j]);
    }
    SizesBound(limit, r, ds, |ds|);
    assert ds[..|ds|] == ds;
    WeightBound(ds, d, limit);
    Pow2Grows(0, limit - (if ds == [] then d else ds[|ds| - 1]));
  }

  lemma NoKids(net: Net, limit: nat, r: Run)
    requires limit <= MAX_INT && Produced(net, limit, r)
    requires RedirectDepth(r.task).Some? ==> RedirectDepth(r.task).value > limit
    ensures r.kids == []
  {
    var capture :| Spawned(net, limit, r, capture);
    var ds := ScanDepths(net, r.task, capture, limit);
    assert |Tasks(ScanOut(net, r.task, capture, limit))| == |ds|;
  }

  /** Counting one run per task, a URL task at depth d leads to at most 2^(limit - d) runs, itself
      included. */
  lemma TreeBound(net: Net, limit: nat, r: Run, d: nat)
    requires limit <= MAX_INT && Produced(net, limit, r) && At(r.task, d) && d <= limit
    ensures Size(r) <= Pow2(limit - d)
  {
    ProducedLimited(net, limit, r, d);
    LimitedBound(limit, r, d);
  }

  /** Beyond the limit, or with an unreadable depth, it leads to just its own. */
  lemma NoTreeBeyondLimit(net: Net, limit: nat, r: Run)
    requires limit <= MAX_INT && Produced(net, limit, r)
    requires RedirectDepth(r.task).Some? ==> RedirectDepth(r.task).value > limit
    ensures Size(r) == 1
  {
    NoKids(net, limit, r);
  }
}
