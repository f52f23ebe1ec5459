/** The string operations the event code uses: trimming, lower case, comma lists, decimal numbers. */
module Text {
  // ---------------------------------------------------------------- trimming

  /** unicode.IsSpace. */
  predicate IsSpace(c: char) {
    || c == ' ' || ('\t' <= c <= '\r') || c == '\U{85}' || c == '\U{A0}' || c == '\U{1680}'
    || ('\U{2000}' <= c <= '\U{200A}') || c == '\U{2028}' || c == '\U{2029}' || c == '\U{202F}'
    || c == '\U{205F}' || c == '\U{3000}'
  }

  /** No space at either end. */
  predicate Trimmed(s: string) {
    s == "" || (!IsSpace(s[0]) && !IsSpace(s[|s| - 1]))
  }

  function TrimLeft(s: string): string {
    if s != "" && IsSpace(s[0]) then TrimLeft(s[1..]) else s
  }

  function TrimRight(s: string): string {
    if s != "" && IsSpace(s[|s| - 1]) then TrimRight(s[..|s| - 1]) else s
  }

  /** strings.TrimSpace. */
  function TrimSpace(s: string): string {
    TrimRight(TrimLeft(s))
  }

  lemma {:induction false} TrimLeftEnd(s: string) returns (k: nat)
    ensures k <= |s| && TrimLeft(s) == s[k..]
    ensures k < |s| ==> !IsSpace(s[k])
  {
    if s != "" && IsSpace(s[0]) {
      k := TrimLeftEnd(s[1..]);
      assert s[1..][k..] == s[k + 1..];
      k := k + 1;
    } else {
      k := 0;
    }
  }

  lemma {:induction false} TrimRightEnd(s: string) returns (k: nat)
    ensures k <= |s| && TrimRight(s) == s[..k]
    ensures k > 0 ==> !IsSpace(s[k - 1])
  {
    if s != "" && IsSpace(s[|s| - 1]) {
      k := TrimRightEnd(s[..|s| - 1]);
      assert s[..|s| - 1][..k] == s[..k];
    } else {
      k := |s|;
    }
  }

  /** TrimSpace leaves no space at either end, keeps a trimmed text, and invents no character. */
  lemma TrimSpaceTrims(s: string)
    ensures Trimmed(TrimSpace(s))
    ensures Trimmed(s) ==> TrimSpace(s) == s
    ensures forall c :: c in TrimSpace(s) ==> c in s
  {
    var k := TrimLeftEnd(s);
    var m := TrimRightEnd(s[k..]);
    assert TrimSpace(s) == s[k..k + m];
  }

  // ---------------------------------------------------------------- comma lists

  /** strings.Split(s, sep) for a single separator character: never empty. */
  function Split(s: string, sep: char): (parts: seq<string>)
    ensures |parts| >= 1
    ensures forall p :: p in parts ==> sep !in p
  {
    if s == "" then [""]
    else if s[0] == sep then [""] + Split(s[1..], sep)
    else
      var rest := Split(s[1..], sep);
      [[s[0]] + rest[0]] + rest[1..]
  }

  function Join(parts: seq<string>, sep: char): string {
    if parts == [] then ""
    else if |parts| == 1 then parts[0]
    else parts[0] + [sep] + Join(parts[1..], sep)
  }

  lemma {:induction false} SplitPlain(s: string, sep: char)
    requires sep !in s
    ensures Split(s, sep) == [s]
  {
    if s != "" {
      SplitPlain(s[1..], sep);
      assert s == [s[0]] + s[1..];
    }
  }

  lemma {:induction false} SplitAt(a: string, b: string, sep: char)
    requires sep !in a
    ensures Split(a + [sep] + b, sep) == [a] + Split(b, sep)
  {
    var s := a + [sep] + b;
    if a == "" {
      assert s[1..] == b;
    } else {
      assert s[1..] == a[1..] + [sep] + b;
      SplitAt(a[1..], b, sep);
      assert a == [a[0]] + a[1..];
    }
  }

  /** strings.Split undoes strings.Join on nonempty lists of parts without the separator. */
  lemma {:induction false} SplitJoin(parts: seq<string>, sep: char)
    requires parts != [] && forall p :: p in parts ==> sep !in p
    ensures Split(Join(parts, sep), sep) == parts
  {
    if |parts| == 1 {
      SplitPlain(parts[0], sep);
    } else {
      SplitJoin(parts[1..], sep);
      SplitAt(parts[0], Join(parts[1..], sep), sep);
    }
  }

  /** strings.Join undoes strings.Split. */
  lemma {:induction false} JoinSplit(s: string, sep: char)
    ensures Join(Split(s, sep), sep) == s
  {
    if s != "" {
      JoinSplit(s[1..], sep);
      var rest := Split(s[1..], sep);
      if s[0] == sep {
        assert Split(s, sep)[1..] == rest;
        assert s == "" + [sep] + s[1..];
      } else {
        assert Split(s, sep)[1..] == rest[1..];
        assert s == [s[0]] + s[1..];
      }
    }
  }

  // ---------------------------------------------------------------- order

  /** Go compares strings bytewise; in UTF-8 that is the order of code points. */
  predicate Less(a: string, b: string) {
    b != "" && (a == "" || a[0] < b[0] || (a[0] == b[0] && Less(a[1..], b[1..])))
  }

  lemma {:induction false} LessTotal(a: string, b: string)
    ensures a == b || Less(a, b) || Less(b, a)
  {
    if a != "" && b != "" && a[0] == b[0] {
      LessTotal(a[1..], b[1..]);
      assert a == [a[0]] + a[1..] && b == [b[0]] + b[1..];
    }
  }

  lemma {:induction false} LessTransitive(a: string, b: string, c: string)
    requires Less(a, b) && Less(b, c)
    ensures Less(a, c)
  {
    if a != "" && a[0] == b[0] == c[0] {
      LessTransitive(a[1..], b[1..], c[1..]);
    }
  }

  lemma {:induction false} LessIrreflexive(a: string)
    ensures !Less(a, a)
  {
    if a != "" { LessIrreflexive(a[1..]); }
  }

  predicate Ascending(ss: seq<string>) {
    forall i, j :: 0 <= i < j < |ss| ==> Less(ss[i], ss[j])
  }

  /** Insert into a sorted list without repetition. */
  function Insert(x: string, ss: seq<string>): (r: seq<string>)
    requires Ascending(ss)
    ensures forall y :: y in r <==> y == x || y in ss
    ensures Ascending(r)
  {
    if ss == [] then [x]
    else if x == ss[0] then ss
    else if Less(x, ss[0]) then
      InsertFirst(x, ss);
      [x] + ss
    else
      var r := Insert(x, ss[1..]);
      InsertLater(x, ss, r);
      [ss[0]] + r
  }

  lemma InsertFirst(x: string, ss: seq<string>)
    requires Ascending(ss) && ss != [] && Less(x, ss[0])
    ensures Ascending([x] + ss)
  {
    forall j | 0 <= j < |ss| ensures Less(x, ss[j]) {
      if j > 0 { LessTransitive(x, ss[0], ss[j]); }
    }
  }

  lemma InsertLater(x: string, ss: seq<string>, r: seq<string>)
    requires Ascending(ss) && ss != [] && x != ss[0] && !Less(x, ss[0])
    requires Ascending(r) && forall y :: y in r <==> y == x || y in ss[1..]
    ensures Ascending([ss[0]] + r)
    ensures forall y :: y in [ss[0]] + r <==> y == x || y in ss
  {
    LessTotal(x, ss[0]);
    assert ss == [ss[0]] + ss[1..];
    forall j | 0 <= j < |r| ensures Less(ss[0], r[j]) {
      assert r[j] in r;
    }
  }

  /** slices.Compact after slices.Sort. */
  function SortCompact(ss: seq<string>): (r: seq<string>)
    ensures forall y :: y in r <==> y in ss
    ensures Ascending(r)
  {
    if ss == [] then [] else Insert(ss[0], SortCompact(ss[1..]))
  }

  /** A sorted list is determined by its members. */
  lemma {:induction false} AscendingUnique(a: seq<string>, b: seq<string>)
    requires Ascending(a) && Ascending(b) && forall y :: y in a <==> y in b
    ensures a == b
  {
    if a != [] && b != [] {
      HeadsAgree(a, b);
      TailMembers(a);
      TailMembers(b);
      AscendingUnique(a[1..], b[1..]);
      assert a == [a[0]] + a[1..] && b == [b[0]] + b[1..];
    } else {
      NonemptyHas(a);
      NonemptyHas(b);
    }
  }

  lemma NonemptyHas(a: seq<string>)
    ensures a != [] ==> exists y :: y in a
  {
    if a != [] { assert a[0] in a; }
  }

  lemma HeadsAgree(a: seq<string>, b: seq<string>)
    requires Ascending(a) && Ascending(b) && a != [] && b != [] && forall y :: y in a <==> y in b
    ensures a[0] == b[0]
  {
    assert a[0] in a && b[0] in b;
    var i :| 0 <= i < |b| && b[i] == a[0];
    var j :| 0 <= j < |a| && a[j] == b[0];
    if i > 0 && j > 0 {
      LessTransitive(a[0], b[0], a[0]);
      LessIrreflexive(a[0]);
    }
  }

  lemma TailMembers(a: seq<string>)
    requires Ascending(a) && a != []
    ensures forall y :: y in a[1..] <==> y in a && y != a[0]
  {
    LessIrreflexive(a[0]);
    assert a == [a[0]] + a[1..];
    forall y | y in a[1..] ensures y != a[0] {
      var k :| 0 <= k < |a[1..]| && a[1..][k] == y;
      assert Less(a[0], a[k + 1]);
    }
  }

  lemma SortCompactIdempotent(ss: seq<string>)
    ensures SortCompact(SortCompact(ss)) == SortCompact(ss)
  {
    AscendingUnique(SortCompact(SortCompact(ss)), SortCompact(ss));
  }
}
