/** The redirect bound cannot be lowered: a server that answers every request with a chain of new URLs, up to
    the limit, makes the worker run 2^(limit - d) times for a task at depth d. */
module RedirectTight {
  import opened Wrappers
  import opened Decimal
  import opened Events
  import opened Hosts
  import opened Urls
  import opened Redirect

  /** An address that URLs can name. */
  ghost predicate Server(net: Net, ip: string) {
    Lawful(net) && net.parse(ip) == Some(ip) && '%' !in ip
  }

  // ---------------------------------------------------------------- the server's URLs

  function Page(i: nat): string {
    "/" + Digits(i)
  }

  function Link(net: Net, ip: string, i: nat): string {
    Print(Http, AuthorityText(net, ip, ""), Page(i))
  }

  function LinkTarget(net: Net, ip: string, i: nat): Target {
    Target(ip, "", "", 80, TCP, Link(net, ip, i), "", AuthorityText(net, ip, ""))
  }

  lemma ServerHost(net: Net, ip: string)
    requires Server(net, ip)
    ensures WebHost(net, ip) && ip != "" && CanonHost(net, ip) == Some(Host(ip, true)) && CanonIP(net, ip) == Some(ip)
  {
    AddrText(net, ip);
    TextTrimmed(ip);
  }

  lemma LinkReads(net: Net, ip: string, i: nat)
    requires Server(net, ip)
    ensures Reads(net, Link(net, ip, i), Http, ip, "", Page(i)) && CanonURL(net, Link(net, ip, i)) == Some(Link(net, ip, i))
  {
    ServerHost(net, ip);
    assert IsDigit(Page(i)[|Page(i)| - 1]);
    PrintReads(net, Http, ip, "", Page(i));
    CanonOfRead(net, Link(net, ip, i), Http, ip, "", Page(i));
  }

  lemma LinkNames(net: Net, ip: string, i: nat)
    requires Server(net, ip)
    ensures URLTarget(net, Link(net, ip, i)) == Some(LinkTarget(net, ip, i))
  {
    LinkReads(net, ip, i);
    ServerHost(net, ip);
    URLTargetNames(net, Link(net, ip, i));
  }

  lemma {:induction false} PageWhole(s: string)
    requires forall i :: 0 <= i < |s| ==> s[i] != '?' && s[i] != '#'
    ensures PathLength(s) == |s|
  {
    if s != "" { PageWhole(s[1..]); }
  }

  lemma PageIsPath(i: nat)
    ensures Path(Page(i)) == Page(i)
  {
    PageWhole(Page(i));
  }

  lemma PagesDiffer(i: nat, j: nat)
    requires i != j
    ensures Page(i) != Page(j)
  {
    NumberDigits(i);
    NumberDigits(j);
    assert Page(i)[1..] == Digits(i) && Page(j)[1..] == Digits(j);
  }

  lemma LinksDiffer(net: Net, ip: string, i: nat, j: nat)
    requires Server(net, ip) && i != j
    ensures Link(net, ip, i) != Link(net, ip, j)
  {
    LinkReads(net, ip, i);
    LinkReads(net, ip, j);
    PagesDiffer(i, j);
  }

  lemma KeysDiffer(net: Net, ip: string, i: nat, j: nat)
    requires Server(net, ip) && i != j
    ensures KeyOf(LinkTarget(net, ip, i)) != KeyOf(LinkTarget(net, ip, j))
  {
    LinksDiffer(net, ip, i, j);
    SameTail(ip + "/", Link(net, ip, i), Link(net, ip, j));
  }

  lemma SameTail(head: string, a: string, b: string)
    requires a != b
    ensures head + a != head + b
  {
    assert (head + a)[|head|..] == a && (head + b)[|head|..] == b;
  }

  lemma NotSameURL(net: Net, ip: string, i: nat, j: nat)
    requires Server(net, ip) && i != j
    ensures !SameURL(net, Link(net, ip, i), Link(net, ip, j))
  {
    LinkReads(net, ip, i);
    LinkReads(net, ip, j);
    PagesDiffer(i, j);
    PageIsPath(i);
    PageIsPath(j);
  }

  // ---------------------------------------------------------------- new URLs all the way

  /** Every response but the first shows an endpoint that this run has not seen. */
  predicate AllNew(sights: seq<Option<Sight>>) {
    && (forall i :: 0 <= i < |sights| ==> sights[i].Some? && (i > 0 ==> !sights[i].value.same))
    && (forall i, j :: 0 < i < j < |sights| ==> KeyOf(sights[i].value.target) != KeyOf(sights[j].value.target))
  }

  /** One task for each response behind the first. */
  function TasksOf(input: Event, sights: seq<Option<Sight>>, d: nat, m: nat): (r: seq<Event>)
    requires AllNew(sights) && m < |sights|
    ensures |r| == m && forall j :: 0 <= j < m ==> r[j] == Redirected(input, sights[j + 1].value.target, d + 1 + j)
  {
    seq(m, j requires 0 <= j < m => Redirected(input, sights[j + 1].value.target, d + 1 + j))
  }

  function KeysOf(sights: seq<Option<Sight>>): set<string> {
    set s | s in sights && s.Some? :: KeyOf(s.value.target)
  }

  predicate WalkIs(w: Walk, input: Event, sights: seq<Option<Sight>>, d: nat, m: nat)
    requires AllNew(sights) && m < |sights|
  {
    w.out == TasksOf(input, sights, d, m) && w.seen == KeysOf(sights[1..m + 1]) && !w.stopped
  }

  lemma NextKey(sights: seq<Option<Sight>>, m: nat)
    requires AllNew(sights) && 0 < m < |sights|
    ensures KeyOf(sights[m].value.target) !in KeysOf(sights[1..m])
    ensures KeysOf(sights[1..m + 1]) == KeysOf(sights[1..m]) + {KeyOf(sights[m].value.target)}
  {
    assert sights[1..m + 1] == sights[1..m] + [sights[m]];
    forall s | s in sights[1..m] ensures s.Some? && KeyOf(s.value.target) != KeyOf(sights[m].value.target) {
      var i :| 0 <= i < m - 1 && sights[1..m][i] == s;
      assert s == sights[i + 1];
    }
  }

  /** After the first response the loop has added nothing; after every further one, a task. */
  lemma {:induction false} WalkOn(input: Event, sights: seq<Option<Sight>>, d: nat, limit: nat, m: nat)
    requires AllNew(sights) && m < |sights| && d + |sights| <= limit + 1
    ensures WalkIs(WalkTo(input, sights[..m + 1], d, limit), input, sights, d, m)
    decreases m
  {
    WalkNext(input, sights, m, d, limit);
    if m == 0 {
      assert sights[..0] == [] && sights[1..1] == [];
    } else {
      WalkOn(input, sights, d, limit, m - 1);
      NextKey(sights, m);
      NextVisit(input, sights, d, limit, m, WalkTo(input, sights[..m], d, limit));
    }
  }

  lemma NextVisit(input: Event, sights: seq<Option<Sight>>, d: nat, limit: nat, m: nat, w: Walk)
    requires AllNew(sights) && 0 < m < |sights| && d + m <= limit && WalkIs(w, input, sights, d, m - 1)
    requires KeyOf(sights[m].value.target) !in KeysOf(sights[1..m])
    requires KeysOf(sights[1..m + 1]) == KeysOf(sights[1..m]) + {KeyOf(sights[m].value.target)}
    ensures WalkIs(Visit(input, sights[m], m, d, limit, w), input, sights, d, m)
  {
    assert Visit(input, sights[m], m, d, limit, w).out == w.out + [Redirected(input, sights[m].value.target, d + m)];
  }

  // ---------------------------------------------------------------- one run

  function HopAt(net: Net, ip: string, i: nat): Hop {
    Hop(Link(net, ip, i), ip, 80)
  }

  /** The browser asked for link k and was sent on n times. */
  function Hops(net: Net, ip: string, k: nat, n: nat): seq<Hop> {
    seq(n + 1, j requires 0 <= j < n + 1 => HopAt(net, ip, k + j))
  }

  function Chain(net: Net, ip: string, k: nat, n: nat): Capture {
    Capture(Hops(net, ip, k, n), "", false, false)
  }

  lemma HopNames(net: Net, ip: string, i: nat)
    requires Server(net, ip)
    ensures HopTarget(net, HopAt(net, ip, i)) == Some(LinkTarget(net, ip, i))
  {
    LinkNames(net, ip, i);
    ServerHost(net, ip);
  }

  /** What a run for link k makes of link i. */
  predicate SeenAs(s: Option<Sight>, t: Target, first: bool) {
    s.Some? && s.value.target == t && (first || !s.value.same)
  }

  lemma SeeLink(net: Net, ip: string, input: Event, k: nat, i: nat)
    requires Server(net, ip) && input.value == Link(net, ip, k)
    ensures SeenAs(See(net, input, HopAt(net, ip, i)), LinkTarget(net, ip, i), i == k)
  {
    HopNames(net, ip, i);
    if i != k { NotSameURL(net, ip, k, i); }
  }

  lemma SightAt(net: Net, ip: string, input: Event, k: nat, n: nat, j: nat)
    requires Server(net, ip) && input.value == Link(net, ip, k) && j <= n
    ensures SeenAs(Sights(net, input, Hops(net, ip, k, n))[j], LinkTarget(net, ip, k + j), j == 0)
  {
    SeeLink(net, ip, input, k, k + j);
  }

  lemma SeenAllNew(sights: seq<Option<Sight>>, targets: seq<Target>)
    requires AllSeen(sights, targets) && AllApart(targets)
    ensures AllNew(sights)
  {
  }

  predicate AllSeen(sights: seq<Option<Sight>>, targets: seq<Target>) {
    |sights| == |targets| && forall j :: 0 <= j < |sights| ==> SeenAs(sights[j], targets[j], j == 0)
  }

  predicate AllApart(targets: seq<Target>) {
    forall i, j :: 0 <= i < j < |targets| ==> KeyOf(targets[i]) != KeyOf(targets[j])
  }

  function LinksFrom(net: Net, ip: string, k: nat, n: nat): (targets: seq<Target>)
    ensures |targets| == n + 1 && forall j :: 0 <= j <= n ==> targets[j] == LinkTarget(net, ip, k + j)
  {
    seq(n + 1, j requires 0 <= j < n + 1 => LinkTarget(net, ip, k + j))
  }

  lemma LinksApart(net: Net, ip: string, k: nat, n: nat)
    requires Server(net, ip)
    ensures AllApart(LinksFrom(net, ip, k, n))
  {
    var targets := LinksFrom(net, ip, k, n);
    forall i, j | 0 <= i < j < |targets| ensures KeyOf(targets[i]) != KeyOf(targets[j]) {
      LinksApartAt(net, ip, k, n, i, j);
    }
  }

  lemma LinksApartAt(net: Net, ip: string, k: nat, n: nat, i: nat, j: nat)
    requires Server(net, ip) && i < j <= n
    ensures KeyOf(LinksFrom(net, ip, k, n)[i]) != KeyOf(LinksFrom(net, ip, k, n)[j])
  {
    KeysDiffer(net, ip, k + i, k + j);
  }

  lemma ChainSeen(net: Net, ip: string, input: Event, k: nat, n: nat)
    requires Server(net, ip) && input.value == Link(net, ip, k)
    ensures AllSeen(Sights(net, input, Hops(net, ip, k, n)), LinksFrom(net, ip, k, n))
  {
    var sights, targets := Sights(net, input, Hops(net, ip, k, n)), LinksFrom(net, ip, k, n);
    forall j | 0 <= j < |sights| ensures SeenAs(sights[j], targets[j], j == 0) {
      SightAt(net, ip, input, k, n, j);
    }
  }

  /** A navigation that ends without an image publishes its diagnosis and the walk's tasks. */
  lemma ImagelessTasks(net: Net, input: Event, hops: seq<Hop>, w: Walk, t: Target)
    requires hops != [] && HopTarget(net, hops[|hops| - 1]) == Some(t) && forall j :: 0 <= j < |w.out| ==> w.out[j].kind == KIND_URL
    ensures Tasks(Finish(net, input, Capture(hops, "", false, false), w).0) == w.out
  {
    var shot := Shot(input, hops[|hops| - 1].url, t);
    ShotIsNoTask(input, hops[|hops| - 1].url, t);
    AllTasks(w.out);
    assert ([shot] + w.out)[1..] == w.out;
  }

  lemma ScanIs(net: Net, input: Event, capture: Capture, d: nat, limit: nat)
    requires Parse(net, input.value).Some? && Parse(net, input.value).value.host != "" && At(input, d) && d <= limit
    ensures ScanOut(net, input, Some(capture), limit) == Finish(net, input, capture, WalkTo(input, Sights(net, input, capture.hops), d, limit)).0
  {
  }

  lemma ChainRead(net: Net, ip: string, k: nat)
    requires Server(net, ip)
    ensures Parse(net, Link(net, ip, k)).Some? && Parse(net, Link(net, ip, k)).value.host != ""
  {
    LinkReads(net, ip, k);
    ServerHost(net, ip);
  }

  lemma WalkAll(input: Event, sights: seq<Option<Sight>>, d: nat, limit: nat)
    requires AllNew(sights) && sights != [] && d + |sights| <= limit + 1
    ensures WalkTo(input, sights, d, limit).out == TasksOf(input, sights, d, |sights| - 1)
  {
    WalkOn(input, sights, d, limit, |sights| - 1);
    assert sights[..|sights| - 1 + 1] == sights;
  }

  lemma WalkedTasks(net: Net, input: Event, hops: seq<Hop>, d: nat, limit: nat, t: Target)
    requires AllNew(Sights(net, input, hops)) && hops != [] && d + |hops| <= limit + 1 && HopTarget(net, hops[|hops| - 1]) == Some(t)
    ensures var sights := Sights(net, input, hops);
      Tasks(Finish(net, input, Capture(hops, "", false, false), WalkTo(input, sights, d, limit)).0) == TasksOf(input, sights, d, |hops| - 1)
  {
    var sights := Sights(net, input, hops);
    WalkAll(input, sights, d, limit);
    ImagelessTasks(net, input, hops, WalkTo(input, sights, d, limit), t);
  }

  /** A navigation that the run follows to its end, at endpoint `t`. */
  ghost predicate Scannable(net: Net, input: Event, hops: seq<Hop>, d: nat, limit: nat, t: Target) {
    && Parse(net, input.value).Some? && Parse(net, input.value).value.host != "" && At(input, d) && d <= limit
    && hops != [] && d + |hops| <= limit + 1 && HopTarget(net, hops[|hops| - 1]) == Some(t)
  }

  lemma ScanTasks(net: Net, input: Event, hops: seq<Hop>, d: nat, limit: nat, t: Target)
    requires Scannable(net, input, hops, d, limit, t) && AllNew(Sights(net, input, hops))
    ensures Tasks(ScanOut(net, input, Some(Capture(hops, "", false, false)), limit)) == TasksOf(input, Sights(net, input, hops), d, |hops| - 1)
  {
    ScanIs(net, input, Capture(hops, "", false, false), d, limit);
    WalkedTasks(net, input, hops, d, limit, t);
  }

  lemma HopsEnd(net: Net, ip: string, k: nat, n: nat)
    ensures var hops := Hops(net, ip, k, n); |hops| == n + 1 && hops[|hops| - 1] == HopAt(net, ip, k + n)
  {
  }

  lemma ChainScannable(net: Net, ip: string, input: Event, k: nat, n: nat, d: nat, limit: nat)
    requires Server(net, ip) && input.value == Link(net, ip, k) && At(input, d) && d + n <= limit
    ensures Scannable(net, input, Hops(net, ip, k, n), d, limit, LinkTarget(net, ip, k + n))
  {
    ChainRead(net, ip, k);
    HopNames(net, ip, k + n);
    HopsEnd(net, ip, k, n);
    ScannableFrom(net, input, Hops(net, ip, k, n), d, limit, LinkTarget(net, ip, k + n), HopAt(net, ip, k + n));
  }

  lemma ScannableFrom(net: Net, input: Event, hops: seq<Hop>, d: nat, limit: nat, t: Target, last: Hop)
    requires Parse(net, input.value).Some? && Parse(net, input.value).value.host != "" && At(input, d)
    requires hops != [] && d + |hops| <= limit + 1 && hops[|hops| - 1] == last && HopTarget(net, last) == Some(t)
    ensures Scannable(net, input, hops, d, limit, t)
  {
  }

  /** What the run publishes as URL tasks. */
  lemma ChainTasks(net: Net, ip: string, input: Event, k: nat, n: nat, d: nat, limit: nat) returns (sights: seq<Option<Sight>>)
    requires Server(net, ip) && input.value == Link(net, ip, k) && At(input, d) && d + n <= limit <= MAX_INT
    ensures AllNew(sights) && AllSeen(sights, LinksFrom(net, ip, k, n))
    ensures Tasks(ScanOut(net, input, Some(Chain(net, ip, k, n)), limit)) == TasksOf(input, sights, d, n)
  {
    sights := Sights(net, input, Hops(net, ip, k, n));
    ChainSeen(net, ip, input, k, n);
    LinksApart(net, ip, k, n);
    SeenAllNew(sights, LinksFrom(net, ip, k, n));
    ChainScannable(net, ip, input, k, n, d, limit);
    ScanTasks(net, input, Hops(net, ip, k, n), d, limit, LinkTarget(net, ip, k + n));
  }

  // ---------------------------------------------------------------- the tree

  /** Tasks for the n links behind link k, each one step deeper. */
  predicate Follows(net: Net, ip: string, tasks: seq<Event>, k: nat, d: nat) {
    forall j: nat :: j < |tasks| ==> LinkTask(net, ip, tasks, k, d, j)
  }

  predicate LinkTask(net: Net, ip: string, tasks: seq<Event>, k: nat, d: nat, j: nat)
    requires j < |tasks|
  {
    tasks[j].value == Link(net, ip, k + 1 + j) && At(tasks[j], d + 1 + j)
  }

  lemma ChainFollows(net: Net, ip: string, input: Event, k: nat, n: nat, d: nat, limit: nat) returns (tasks: seq<Event>)
    requires Server(net, ip) && input.value == Link(net, ip, k) && At(input, d) && d + n <= limit <= MAX_INT
    ensures tasks == Tasks(ScanOut(net, input, Some(Chain(net, ip, k, n)), limit)) && |tasks| == n && Follows(net, ip, tasks, k, d)
  {
    var sights := ChainTasks(net, ip, input, k, n, d, limit);
    tasks := TasksOf(input, sights, d, n);
    SightsFollow(net, ip, input, sights, k, n, d);
  }

  lemma SightsFollow(net: Net, ip: string, input: Event, sights: seq<Option<Sight>>, k: nat, n: nat, d: nat)
    requires AllNew(sights) && d + n <= MAX_INT && AllSeen(sights, LinksFrom(net, ip, k, n))
    ensures Follows(net, ip, TasksOf(input, sights, d, n), k, d)
  {
    var tasks := TasksOf(input, sights, d, n);
    forall j: nat | j < n ensures LinkTask(net, ip, tasks, k, d, j) {
      assert LinksFrom(net, ip, k, n)[j + 1] == LinkTarget(net, ip, k + (j + 1));
      RedirectedDepth(input, sights[j + 1].value.target, d + 1 + j);
    }
  }

  /** Runs of sizes 2^(n-1), 2^(n-2) and so on. */
  predicate Halving(kids: seq<Run>, n: nat) {
    |kids| <= n && forall j :: 0 <= j < |kids| ==> Size(kids[j]) == Pow2(n - 1 - j)
  }

  lemma HalvingAppend(kids: seq<Run>, kid: Run, n: nat)
    requires Halving(kids, n) && |kids| < n && Size(kid) == Pow2(n - 1 - |kids|)
    ensures Halving(kids + [kid], n)
  {
  }

  /** All n of them, but for the last m, add up. */
  lemma {:induction false} HalvingSizes(r: Run, n: nat, m: nat)
    requires |r.kids| == n && m <= n && Halving(r.kids, n)
    ensures Sizes(r, n - m) + Pow2(m) == Pow2(n)
    decreases n - m
  {
    if m < n { HalvingSizes(r, n, m + 1); }
  }

  ghost predicate AllProduced(net: Net, limit: nat, kids: seq<Run>) {
    forall kid :: kid in kids ==> Produced(net, limit, kid)
  }

  lemma {:induction false} ProducedAppend(net: Net, limit: nat, kids: seq<Run>, more: seq<Run>)
    requires AllProduced(net, limit, kids) && AllProduced(net, limit, more)
    ensures AllProduced(net, limit, kids + more)
  {
    assert forall k :: k in kids + more ==> k in kids || k in more;
  }

  predicate RunsOf(kids: seq<Run>, tasks: seq<Event>) {
    |kids| == |tasks| && forall j :: 0 <= j < |kids| ==> kids[j].task == tasks[j]
  }

  lemma RunsAppend(kids: seq<Run>, tasks: seq<Event>, kid: Run, m: nat)
    requires m < |tasks| && RunsOf(kids, tasks[..m]) && kid.task == tasks[m]
    ensures RunsOf(kids + [kid], tasks[..m + 1])
  {
    assert tasks[..m + 1] == tasks[..m] + [tasks[m]];
  }

  lemma {:induction false} RunIsProduced(net: Net, limit: nat, r: Run, capture: Option<Capture>, tasks: seq<Event>)
    requires tasks == Tasks(ScanOut(net, r.task, capture, limit)) && RunsOf(r.kids, tasks) && AllProduced(net, limit, r.kids)
    ensures AllProduced(net, limit, [r])
  {
    assert Spawned(net, limit, r, capture);
    assert Produced(net, limit, r);
  }

  /** The tree of a task for link k at depth d. */
  lemma {:induction false} Grow(net: Net, ip: string, task: Event, k: nat, d: nat, limit: nat) returns (r: Run)
    requires Server(net, ip) && task.value == Link(net, ip, k) && At(task, d) && d <= limit <= MAX_INT
    ensures r.task == task && AllProduced(net, limit, [r]) && Size(r) == Pow2(limit - d)
    decreases limit - d, 1, 0
  {
    var n := limit - d;
    var tasks := ChainFollows(net, ip, task, k, n, d, limit);
    var kids := GrowKids(net, ip, tasks, k, d, limit, n);
    assert tasks[..n] == tasks;
    r := Run(task, kids);
    RunIsProduced(net, limit, r, Some(Chain(net, ip, k, n)), tasks);
    HalvingSizes(r, n, 0);
  }

  /** The trees of the first m tasks. */
  lemma {:induction false} GrowKids(net: Net, ip: string, tasks: seq<Event>, k: nat, d: nat, limit: nat, m: nat) returns (kids: seq<Run>)
    requires Server(net, ip) && Follows(net, ip, tasks, k, d) && d <= limit <= MAX_INT && |tasks| == limit - d && m <= |tasks|
    ensures |kids| == m && RunsOf(kids, tasks[..m]) && AllProduced(net, limit, kids) && Halving(kids, limit - d)
    decreases limit - d, 0, m
  {
    if m == 0 {
      kids := [];
    } else {
      var before := GrowKids(net, ip, tasks, k, d, limit, m - 1);
      var kid := GrowKid(net, ip, tasks, k, d, limit, m - 1);
      RunsAppend(before, tasks, kid, m - 1);
      ProducedAppend(net, limit, before, [kid]);
      HalvingAppend(before, kid, limit - d);
      kids := before + [kid];
    }
  }

  lemma {:induction false} GrowKid(net: Net, ip: string, tasks: seq<Event>, k: nat, d: nat, limit: nat, j: nat) returns (kid: Run)
    requires Server(net, ip) && Follows(net, ip, tasks, k, d) && d <= limit <= MAX_INT && |tasks| == limit - d && j < |tasks|
    ensures kid.task == tasks[j] && AllProduced(net, limit, [kid]) && Size(kid) == Pow2(limit - d - 1 - j)
    decreases limit - d, 0, 0
  {
    assert LinkTask(net, ip, tasks, k, d, j);
    kid := Grow(net, ip, tasks[j], k + 1 + j, d + 1 + j, limit);
  }

  function RootTask(net: Net, ip: string, d: nat): Event {
    Redirected(Event(SCHEMA_VERSION, "", "", "", KIND_URL, Link(net, ip, 0), "", "", NO_TARGET, None, "", "", false, map[], map[]),
               LinkTarget(net, ip, 0), d)
  }

  /** For every limit and depth there are browser responses for which the worker runs exactly 2^(limit - d)
      times. */
  lemma BoundIsMet(net: Net, ip: string, limit: nat, d: nat) returns (r: Run)
    requires Server(net, ip) && d <= limit <= MAX_INT
    ensures Produced(net, limit, r) && At(r.task, d) && Size(r) == Pow2(limit - d)
  {
    RootDepth(net, ip, d);
    r := Grow(net, ip, RootTask(net, ip, d), 0, d, limit);
    OneProduced(net, limit, r);
  }

  lemma OneProduced(net: Net, limit: nat, r: Run)
    requires AllProduced(net, limit, [r])
    ensures Produced(net, limit, r)
  {
    assert r in [r];
  }

  lemma RootDepth(net: Net, ip: string, d: nat)
    requires d <= MAX_INT
    ensures At(RootTask(net, ip, d), d) && RootTask(net, ip, d).value == Link(net, ip, 0)
  {
    AtoiItoa(d);
    ItoaNonempty(d);
  }
}
