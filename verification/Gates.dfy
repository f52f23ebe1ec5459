/** Allow and deny gates: comma lists in an event's metadata (event/event.go), their inheritance by
    outputs, and their intersection when two facts are joined (internal/reconcile/reconcile.go). */
module Gates {
  import opened Wrappers
  import opened Events
  import opened Text

  type Meta = map<string, string>

  // ---------------------------------------------------------------- lists

  function Cleaned(parts: seq<string>): seq<string> {
    if parts == [] then []
    else (if TrimSpace(parts[0]) != "" then [TrimSpace(parts[0])] else []) + Cleaned(parts[1..])
  }

  function SplitMetaList(s: string): seq<string> {
    if s == "" then [] else Cleaned(Split(s, ','))
  }

  function JoinMetaList(ss: seq<string>): string {
    Join(ss, ',')
  }

  /** What an entry of a gate list looks like. */
  predicate Entry(s: string) {
    s != "" && Trimmed(s) && ',' !in s
  }

  predicate Entries(ss: seq<string>) {
    forall s :: s in ss ==> Entry(s)
  }

  lemma {:induction false} CleanedEntries(parts: seq<string>)
    requires forall p :: p in parts ==> ',' !in p
    ensures Entries(Cleaned(parts))
  {
    if parts != [] {
      CleanedEntries(parts[1..]);
      assert parts[0] in parts;
      TrimSpaceTrims(parts[0]);
    }
  }

  lemma SplitEntries(s: string)
    ensures Entries(SplitMetaList(s))
  {
    CleanedEntries(Split(s, ','));
  }

  lemma {:induction false} CleanedSame(parts: seq<string>)
    requires Entries(parts)
    ensures Cleaned(parts) == parts
  {
    if parts != [] {
      assert parts[0] in parts;
      TrimSpaceTrims(parts[0]);
      CleanedSame(parts[1..]);
      assert parts == [parts[0]] + parts[1..];
    }
  }

  /** The list survives being written and read back. */
  lemma SplitJoinMetaList(ss: seq<string>)
    requires Entries(ss)
    ensures SplitMetaList(JoinMetaList(ss)) == ss
  {
    if ss != [] {
      assert ss[0] in ss;
      SplitJoin(ss, ',');
      CleanedSame(ss);
    }
  }

  lemma {:induction false} CleanedSnoc(parts: seq<string>, i: nat)
    requires i < |parts|
    ensures Cleaned(parts[..i + 1]) == Cleaned(parts[..i]) + (if TrimSpace(parts[i]) != "" then [TrimSpace(parts[i])] else [])
  {
    var next := parts[..i + 1];
    assert next[1..] == parts[1..][..i];
    if i > 0 {
      assert parts[..i][1..] == parts[1..][..i - 1];
      CleanedSnoc(parts[1..], i - 1);
    }
  }

  /** SplitMetaList's loop over the comma-separated parts. */
  method CleanParts(parts: seq<string>) returns (out: seq<string>)
    ensures out == Cleaned(parts)
  {
    out := [];
    var i := 0;
    while i < |parts|
      invariant 0 <= i <= |parts| && out == Cleaned(parts[..i])
    {
      CleanedSnoc(parts, i);
      var p := TrimSpace(parts[i]);
      if p != "" {
        out := out + [p];
      }
      i := i + 1;
    }
    assert parts[..i] == parts;
  }

  method SplitList(s: string) returns (out: seq<string>)
    ensures out == SplitMetaList(s)
  {
    if s == "" {
      return [];
    }
    out := CleanParts(Split(s, ','));
  }

  // ---------------------------------------------------------------- who may run

  function AllowList(meta: Meta): seq<string> {
    SplitMetaList(Lookup(meta, "allow"))
  }

  function DenyList(meta: Meta): seq<string> {
    SplitMetaList(Lookup(meta, "deny"))
  }

  predicate Allowed(tool: string, meta: Meta) {
    tool !in DenyList(meta) && (AllowList(meta) == [] || tool in AllowList(meta))
  }

  /** Allowed as the two scans the code makes. */
  method CheckAllowed(tool: string, meta: Meta) returns (ok: bool)
    ensures ok <==> Allowed(tool, meta)
  {
    var deny := SplitList(Lookup(meta, "deny"));
    var i := 0;
    while i < |deny|
      invariant 0 <= i <= |deny| && tool !in deny[..i]
    {
      if deny[i] == tool {
        return false;
      }
      i := i + 1;
    }
    var allow := SplitList(Lookup(meta, "allow"));
    if |allow| == 0 {
      return true;
    }
    i := 0;
    while i < |allow|
      invariant 0 <= i <= |allow| && tool !in allow[..i]
    {
      if allow[i] == tool {
        return true;
      }
      i := i + 1;
    }
    return false;
  }

  /** An allow list names the tools that may run, and no other. */
  lemma AllowNames(ss: seq<string>, meta: Meta, tool: string)
    requires Entries(ss) && ss != [] && "allow" in meta && meta["allow"] == JoinMetaList(ss) && ("deny" in meta ==> meta["deny"] == "")
    ensures Allowed(tool, meta) <==> tool in ss
  {
    SplitJoinMetaList(ss);
  }

  /** A deny list keeps its tools out whatever the allow list says, and no others by itself. */
  lemma DenyNames(ss: seq<string>, meta: Meta, tool: string)
    requires Entries(ss) && "deny" in meta && meta["deny"] == JoinMetaList(ss)
    ensures tool in ss ==> !Allowed(tool, meta)
    ensures tool !in ss && ("allow" in meta ==> meta["allow"] == "") ==> Allowed(tool, meta)
  {
    SplitJoinMetaList(ss);
  }

  /** Without gates every tool may run. */
  lemma OpenGates(meta: Meta, tool: string)
    requires ("allow" in meta ==> meta["allow"] == "") && ("deny" in meta ==> meta["deny"] == "")
    ensures Allowed(tool, meta)
  {
  }

  /** For all metadata, however it is written: who may run is named in the allow list, if that has entries,
      and is not named in the deny list. */
  lemma AllowedIsNamed(meta: Meta, tool: string)
    ensures Allowed(tool, meta) <==>
      && ("deny" in meta ==> tool !in SplitMetaList(meta["deny"]))
      && ("allow" in meta && SplitMetaList(meta["allow"]) != [] ==> tool in SplitMetaList(meta["allow"]))
  {
    assert SplitMetaList("") == [];
  }

  // ---------------------------------------------------------------- inheritance

  /** A gate, scope or profile the child does not set comes from its parent. */
  function Inherited(parent: Meta, child: Meta, key: string): (m: Meta)
    ensures Lookup(m, key) == if Lookup(child, key) == "" then Lookup(parent, key) else Lookup(child, key)
    ensures forall k :: k != key ==> Lookup(m, k) == Lookup(child, k)
  {
    if Lookup(child, key) == "" && Lookup(parent, key) != "" then child[key := Lookup(parent, key)] else child
  }

  function InheritGate(parent: Meta, child: Meta): Meta {
    Inherited(parent, Inherited(parent, Inherited(parent, Inherited(parent, child, "allow"), "deny"), "scope"), "profile")
  }

  lemma InheritLookup(parent: Meta, child: Meta, key: string)
    ensures Lookup(InheritGate(parent, child), key)
         == if key in {"allow", "deny", "scope", "profile"} && Lookup(child, key) == "" then Lookup(parent, key) else Lookup(child, key)
  {
  }

  // ---------------------------------------------------------------- intersection

  /** The entries of `aa` that `ba` also names, in the order of `aa`. */
  function Common(aa: seq<string>, ba: seq<string>): (r: seq<string>)
    ensures forall t :: t in r <==> t in aa && t in ba
  {
    if aa == [] then []
    else (if aa[|aa| - 1] in ba then Common(aa[..|aa| - 1], ba) + [aa[|aa| - 1]] else Common(aa[..|aa| - 1], ba))
  }

  /** An empty allow list admits every tool. */
  function AllowBoth(aa: seq<string>, ba: seq<string>): seq<string> {
    if aa == [] then ba else if ba == [] then aa else Common(aa, ba)
  }

  predicate Disjoint(aa: seq<string>, ba: seq<string>) {
    aa != [] && ba != [] && forall t :: t in aa ==> t !in ba
  }

  function JoinedMeta(a: Meta, b: Meta, allow: seq<string>): Meta {
    var meta := map["scope" := Lookup(a, "scope"), "allow" := JoinMetaList(allow),
                    "deny" := JoinMetaList(SortCompact(DenyList(a) + DenyList(b)))];
    if Lookup(a, "profile") == Lookup(b, "profile") then meta["profile" := Lookup(a, "profile")] else meta
  }

  /** intersectGates: the metadata of a fact joined from two facts, unless no tool may see it. */
  function IntersectGates(a: Meta, b: Meta): Option<Meta> {
    if Disjoint(AllowList(a), AllowList(b)) then None
    else Some(JoinedMeta(a, b, AllowBoth(AllowList(a), AllowList(b))))
  }

  /** intersectGates as the code computes it. */
  method Intersect(a: Meta, b: Meta) returns (r: Option<Meta>)
    ensures r == IntersectGates(a, b)
  {
    var aa := SplitList(Lookup(a, "allow"));
    var ba := SplitList(Lookup(b, "allow"));
    var allow := aa;
    if |aa| == 0 {
      allow := ba;
    } else if |ba| > 0 {
      allow := CommonLoop(aa, ba);
      if |allow| == 0 {
        NothingCommon(aa, ba);
        return None;
      }
      assert allow[0] in allow;
    }
    r := Some(JoinedMeta(a, b, allow));
  }

  lemma NothingCommon(aa: seq<string>, ba: seq<string>)
    requires aa != [] && ba != [] && Common(aa, ba) == []
    ensures Disjoint(aa, ba)
  {
    forall t | t in aa ensures t !in ba { assert t !in Common(aa, ba); }
  }

  method CommonLoop(aa: seq<string>, ba: seq<string>) returns (allow: seq<string>)
    ensures allow == Common(aa, ba)
  {
    allow := [];
    var i := 0;
    while i < |aa|
      invariant 0 <= i <= |aa| && allow == Common(aa[..i], ba)
    {
      assert aa[..i + 1][..i] == aa[..i];
      if aa[i] in ba {
        allow := allow + [aa[i]];
      }
      i := i + 1;
    }
    assert aa[..i] == aa;
  }

  lemma JoinedLookups(a: Meta, b: Meta, allow: seq<string>)
    ensures Lookup(JoinedMeta(a, b, allow), "allow") == JoinMetaList(allow)
    ensures Lookup(JoinedMeta(a, b, allow), "deny") == JoinMetaList(SortCompact(DenyList(a) + DenyList(b)))
    ensures Lookup(JoinedMeta(a, b, allow), "scope") == Lookup(a, "scope")
  {
  }

  /** Besides its gates a joined fact has the scope of the first one, and a profile both agree on. */
  lemma JoinedRest(a: Meta, b: Meta)
    requires IntersectGates(a, b).Some?
    ensures var m := IntersectGates(a, b).value;
      && Lookup(m, "scope") == Lookup(a, "scope")
      && (if Lookup(a, "profile") == Lookup(b, "profile") then "profile" in m && m["profile"] == Lookup(a, "profile") else "profile" !in m)
  {
  }

  lemma JoinedDeny(a: Meta, b: Meta)
    ensures var deny := SortCompact(DenyList(a) + DenyList(b));
      SplitMetaList(JoinMetaList(deny)) == deny && forall t :: t in deny <==> t in DenyList(a) || t in DenyList(b)
  {
    SplitEntries(Lookup(a, "deny"));
    SplitEntries(Lookup(b, "deny"));
    SplitJoinMetaList(SortCompact(DenyList(a) + DenyList(b)));
  }

  lemma JoinedLists(a: Meta, b: Meta, allow: seq<string>)
    requires Entries(allow)
    ensures AllowList(JoinedMeta(a, b, allow)) == allow
    ensures forall t :: t in DenyList(JoinedMeta(a, b, allow)) <==> t in DenyList(a) || t in DenyList(b)
  {
    JoinedLookups(a, b, allow);
    SplitJoinMetaList(allow);
    JoinedDeny(a, b);
  }

  /** The intersection is exact: through the comma lists, it admits a tool exactly when both sides do,
      and it is refused only when both allow lists are nonempty and have nothing in common. */
  lemma GatesExact(a: Meta, b: Meta)
    ensures IntersectGates(a, b).None? <==> Disjoint(AllowList(a), AllowList(b))
    ensures IntersectGates(a, b).Some? ==>
      forall tool :: Allowed(tool, IntersectGates(a, b).value) <==> Allowed(tool, a) && Allowed(tool, b)
  {
    if IntersectGates(a, b).Some? {
      SplitEntries(Lookup(a, "allow"));
      SplitEntries(Lookup(b, "allow"));
      var allow := AllowBoth(AllowList(a), AllowList(b));
      JoinedLists(a, b, allow);
      AllowBothExact(AllowList(a), AllowList(b));
    }
  }

  lemma AllowBothExact(aa: seq<string>, ba: seq<string>)
    requires !Disjoint(aa, ba)
    ensures var allow := AllowBoth(aa, ba);
      forall t :: (allow == [] || t in allow) <==> (aa == [] || t in aa) && (ba == [] || t in ba)
  {
    if aa != [] && ba != [] {
      var t :| t in aa && t in ba;
      assert t in Common(aa, ba);
    }
  }

  // ---------------------------------------------------------------- lineage

  predicate AddsNoGate(own: Meta) {
    Lookup(own, "allow") == "" && Lookup(own, "deny") == ""
  }

  /** `own` is what a handler put on an output of a delivery of an event with metadata `parent`: no gate,
      or, from the reconciler, the intersection with another fact's gates. */
  ghost predicate Owns(parent: Meta, own: Meta) {
    || AddsNoGate(own)
    || exists other: Meta :: IntersectGates(parent, other) == Some(own) || IntersectGates(other, parent) == Some(own)
  }

  lemma PlainChild(parent: Meta, own: Meta, tool: string)
    requires AddsNoGate(own)
    ensures Allowed(tool, InheritGate(parent, own)) <==> Allowed(tool, parent)
  {
    InheritLookup(parent, own, "allow");
    InheritLookup(parent, own, "deny");
  }

  lemma EmptyMetaList(ss: seq<string>)
    requires Entries(ss) && JoinMetaList(ss) == ""
    ensures ss == []
  {
    SplitJoinMetaList(ss);
  }

  /** Inheriting over an intersection with the parent's own gates changes nothing. */
  lemma JoinedChild(parent: Meta, own: Meta, a: Meta, b: Meta, tool: string)
    requires IntersectGates(a, b) == Some(own) && (parent == a || parent == b)
    ensures Allowed(tool, InheritGate(parent, own)) <==> Allowed(tool, a) && Allowed(tool, b)
  {
    GatesExact(a, b);
    SplitEntries(Lookup(a, "allow"));
    SplitEntries(Lookup(b, "allow"));
    var allow := AllowBoth(AllowList(a), AllowList(b));
    assert own == JoinedMeta(a, b, allow);
    InheritAllow(parent, own, a, b, allow);
    InheritDeny(parent, own, a, b, allow);
  }

  lemma InheritAllow(parent: Meta, own: Meta, a: Meta, b: Meta, allow: seq<string>)
    requires own == JoinedMeta(a, b, allow) && allow == AllowBoth(AllowList(a), AllowList(b)) && !Disjoint(AllowList(a), AllowList(b))
    requires (parent == a || parent == b) && Entries(allow)
    ensures AllowList(InheritGate(parent, own)) == AllowList(own)
  {
    InheritLookup(parent, own, "allow");
    if Lookup(own, "allow") == "" {
      EmptyMetaList(allow);
      AllowBothExact(AllowList(a), AllowList(b));
    }
  }

  lemma InheritDeny(parent: Meta, own: Meta, a: Meta, b: Meta, allow: seq<string>)
    requires own == JoinedMeta(a, b, allow) && (parent == a || parent == b)
    ensures DenyList(InheritGate(parent, own)) == DenyList(own)
  {
    InheritLookup(parent, own, "deny");
    SplitEntries(Lookup(a, "deny"));
    SplitEntries(Lookup(b, "deny"));
    var deny := SortCompact(DenyList(a) + DenyList(b));
    if Lookup(own, "deny") == "" {
      EmptyMetaList(deny);
      assert forall t :: t in DenyList(a) || t in DenyList(b) ==> t in deny;
      NonemptyHas(DenyList(a));
      NonemptyHas(DenyList(b));
    }
  }

  /** An output stamped by InheritGate (sdk/work.go:327). */
  ghost predicate Derives(parent: Meta, child: Meta) {
    exists own: Meta :: Owns(parent, own) && child == InheritGate(parent, own)
  }

  /** A tool that may not see an event may not see anything its handlers publish. */
  lemma DeniedChild(parent: Meta, child: Meta, tool: string)
    requires Derives(parent, child) && !Allowed(tool, parent)
    ensures !Allowed(tool, child)
  {
    var own: Meta :| Owns(parent, own) && child == InheritGate(parent, own);
    if AddsNoGate(own) {
      PlainChild(parent, own, tool);
    } else {
      var other: Meta :| IntersectGates(parent, other) == Some(own) || IntersectGates(other, parent) == Some(own);
      if IntersectGates(parent, other) == Some(own) {
        JoinedChild(parent, own, parent, other, tool);
      } else {
        JoinedChild(parent, own, other, parent, tool);
      }
    }
  }
}
