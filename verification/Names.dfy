/** DNS names and numbers as they are written: what trimming, lower case and the name check come to
    (event/event.go, event/target.go:235-258). */
module Names {
  import opened Text
  import opened Decimal
  import opened Hosts

  // ---------------------------------------------------------------- trimming and lower case

  predicate Blank(s: string) {
    forall i :: 0 <= i < |s| ==> IsSpace(s[i])
  }

  lemma {:induction false} TrimLeftBlank(a: string, s: string)
    requires Blank(a) && s != "" && !IsSpace(s[0])
    ensures TrimLeft(a + s) == s
  {
    if a == "" {
      assert a + s == s;
    } else {
      assert (a + s)[1..] == a[1..] + s;
      TrimLeftBlank(a[1..], s);
    }
  }

  lemma {:induction false} TrimRightBlank(s: string, b: string)
    requires Blank(b) && s != "" && !IsSpace(s[|s| - 1])
    ensures TrimRight(s + b) == s
  {
    if b == "" {
      assert s + b == s;
    } else {
      assert (s + b)[..|s + b| - 1] == s + b[..|b| - 1];
      TrimRightBlank(s, b[..|b| - 1]);
    }
  }

  /** Trimming takes away the space around a text, and nothing else. */
  lemma TrimSpaceExact(a: string, s: string, b: string)
    requires Blank(a) && Blank(b) && s != "" && Trimmed(s)
    ensures TrimSpace(a + s + b) == s
  {
    assert a + s + b == a + (s + b);
    TrimLeftBlank(a, s + b);
    TrimRightBlank(s, b);
  }

  lemma DottedTrims(a: string, s: string, b: string)
    requires Blank(a) && Blank(b) && s != "" && Trimmed(s)
    ensures TrimSpace(a + (s + ".") + b) == s + "." && DropDot(s + ".") == s
  {
    TrimSpaceExact(a, s + ".", b);
    assert (s + ".")[..|s|] == s;
  }

  /** CanonFQDN drops the space around a name and one trailing dot, and writes capitals small. */
  lemma CanonFQDNExact(a: string, s: string, b: string)
    requires Blank(a) && Blank(b) && s != "" && Trimmed(s) && s[|s| - 1] != '.'
    ensures var name := CanonFQDN(a + s + b);
      && name == CanonFQDN(a + (s + ".") + b) && |name| == |s|
      && forall i :: 0 <= i < |s| ==> name[i] == if s[i] < 'A' || 'Z' < s[i] then s[i] else (s[i] as int - 'A' as int + 'a' as int) as char
  {
    TrimSpaceExact(a, s, b);
    DottedTrims(a, s, b);
  }

  // ---------------------------------------------------------------- valid names

  predicate NameChar(c: char) {
    'a' <= c <= 'z' || '0' <= c <= '9' || c == '-' || c == '_' || c == '.'
  }

  /** No dot or hyphen at either end, no two dots in a row, no hyphen next to a dot. */
  predicate Joints(s: string) {
    && s != "" && s[0] != '.' && s[0] != '-' && s[|s| - 1] != '.' && s[|s| - 1] != '-'
    && forall i {:trigger s[i]} :: 0 <= i < |s| - 1 ==>
         !(s[i] == '.' && s[i + 1] == '.') && !(s[i] == '.' && s[i + 1] == '-') && !(s[i] == '-' && s[i + 1] == '.')
  }

  /** Of 64 characters in a row one is a dot. */
  predicate Short(s: string) {
    forall i :: 0 <= i <= |s| - 64 ==> DotFrom(s, i)
  }

  predicate DotFrom(s: string, i: int)
    requires 0 <= i <= |s| - 64
  {
    '.' in s[i..i + 64]
  }

  predicate Well(s: string) {
    (forall i :: 0 <= i < |s| ==> NameChar(s[i])) && Joints(s) && Short(s)
  }

  lemma OneLabel(s: string)
    requires '.' !in s
    ensures Label(s) <==> Well(s)
  {
    if |s| >= 64 {
      assert '.' !in s[0..64];
      assert !DotFrom(s, 0);
    }
  }

  lemma LongLabel(a: string, b: string)
    requires '.' !in a && |a| >= 64
    ensures !DotFrom(a + "." + b, 0)
  {
    assert (a + "." + b)[0..64] == a[0..64];
  }

  lemma BehindDot(a: string, b: string, i: nat)
    requires i + 64 <= |b|
    ensures DotFrom(a + "." + b, |a| + 1 + i) <==> DotFrom(b, i)
  {
    var s := a + "." + b;
    assert s[|a| + 1..] == b;
    assert s[|a| + 1 + i..|a| + 1 + i + 64] == s[|a| + 1..][i..i + 64];
  }

  lemma AcrossDot(a: string, b: string, i: nat)
    requires i <= |a| < i + 64 <= |a + "." + b|
    ensures DotFrom(a + "." + b, i)
  {
    assert (a + "." + b)[i..i + 64][|a| - i] == '.';
  }

  lemma ShortParts(a: string, b: string)
    requires '.' !in a
    ensures Short(a + "." + b) <==> |a| <= 63 && Short(b)
  {
    var s := a + "." + b;
    if |a| >= 64 { LongLabel(a, b); }
    if Short(s) {
      forall i | 0 <= i <= |b| - 64 ensures DotFrom(b, i) {
        BehindDot(a, b, i);
      }
    }
    if |a| <= 63 && Short(b) {
      forall i | 0 <= i <= |s| - 64 ensures DotFrom(s, i) {
        if i <= |a| {
          AcrossDot(a, b, i);
        } else {
          BehindDot(a, b, i - |a| - 1);
        }
      }
    }
  }

  lemma JointsParts(a: string, b: string)
    requires '.' !in a
    ensures Joints(a + "." + b) <==> a != "" && a[0] != '-' && a[|a| - 1] != '-' && Joints(b)
  {
    var s := a + "." + b;
    assert forall i :: 0 <= i < |a| ==> s[i] == a[i] && a[i] != '.';
    assert s[|a|] == '.' && forall i :: 0 <= i < |b| ==> s[|a| + 1 + i] == b[i];
    if Joints(s) {
      assert b != "";
      assert s[|a|] == '.';
      if a != "" { assert s[|a| - 1] == a[|a| - 1]; }
      forall i {:trigger b[i]} | 0 <= i < |b| - 1
        ensures !(b[i] == '.' && b[i + 1] == '.') && !(b[i] == '.' && b[i + 1] == '-') && !(b[i] == '-' && b[i + 1] == '.')
      {
        assert s[|a| + 1 + i] == b[i] && s[|a| + 1 + i + 1] == b[i + 1];
      }
    }
    if a != "" && a[0] != '-' && a[|a| - 1] != '-' && Joints(b) {
      forall i {:trigger s[i]} | 0 <= i < |s| - 1
        ensures !(s[i] == '.' && s[i + 1] == '.') && !(s[i] == '.' && s[i + 1] == '-') && !(s[i] == '-' && s[i + 1] == '.')
      {
        if i > |a| { assert s[i] == b[i - |a| - 1] && s[i + 1] == b[i - |a|]; }
      }
    }
  }

  lemma CharsParts(a: string, b: string)
    ensures var s := a + "." + b;
      (forall i :: 0 <= i < |s| ==> NameChar(s[i])) <==> (forall i :: 0 <= i < |a| ==> NameChar(a[i])) && (forall i :: 0 <= i < |b| ==> NameChar(b[i]))
  {
    var s := a + "." + b;
    assert forall i :: 0 <= i < |a| ==> s[i] == a[i];
    assert forall i :: 0 <= i < |b| ==> s[|a| + 1 + i] == b[i];
  }

  lemma WellParts(a: string, b: string)
    requires '.' !in a
    ensures Well(a + "." + b) <==> Label(a) && Well(b)
  {
    ShortParts(a, b);
    JointsParts(a, b);
    CharsParts(a, b);
  }

  /** Where the first dot is. */
  lemma {:induction false} FirstDot(s: string) returns (k: nat)
    requires '.' in s
    ensures k < |s| && s[k] == '.' && '.' !in s[..k]
  {
    if s[0] == '.' {
      k := 0;
    } else {
      var n := FirstDot(s[1..]);
      k := n + 1;
      assert s[..k] == [s[0]] + s[1..][..n];
    }
  }

  lemma {:induction false} LabelsAreWell(s: string)
    ensures (forall l :: l in Split(s, '.') ==> Label(l)) <==> Well(s)
    decreases |s|
  {
    if '.' in s {
      var k := FirstDot(s);
      var a, b := s[..k], s[k + 1..];
      assert s == a + "." + b;
      Text.SplitAt(a, b, '.');
      LabelsAreWell(b);
      WellParts(a, b);
      assert forall l :: l in Split(s, '.') <==> l == a || l in Split(b, '.');
    } else {
      Text.SplitPlain(s, '.');
      OneLabel(s);
    }
  }

  /** A valid name, character by character: at most 253 small letters, digits, hyphens, underscores and dots;
      no dot or hyphen at either end; no hyphen or second dot next to a dot; and never more than 63 characters
      between dots. */
  lemma ValidNameIff(name: string)
    ensures ValidName(name) <==> |name| <= 253 && (forall i :: 0 <= i < |name| ==> NameChar(name[i])) && Joints(name) && Short(name)
  {
    LabelsAreWell(name);
  }

  // ---------------------------------------------------------------- endpoints

  /** An endpoint can be written for a port in range and a host that is not blank; only an IPv6 address is
      bracketed. */
  lemma PortValueIff(net: Net, host: string, port: int)
    ensures PortValue(net, host, port).Some? <==> 1 <= port <= 65535 && (net.parse(TrimSpace(host)).Some? || TrimSpace(host) != "")
    ensures PortValue(net, host, port).Some? && net.parse(TrimSpace(host)).None? ==>
      PortValue(net, host, port).value == CanonFQDN(TrimSpace(host)) + ":" + Itoa(port)
    ensures Lawful(net) && PortValue(net, host, port).Some? && net.parse(TrimSpace(host)).Some? ==>
      var ip := net.parse(TrimSpace(host)).value;
      PortValue(net, host, port).value == (if ':' in ip then "[" + ip + "]" else ip) + ":" + Itoa(port)
  {
    if PortValue(net, host, port).Some? {
      if net.parse(TrimSpace(host)).Some? {
        var ip := net.parse(TrimSpace(host)).value;
        assert Lawful(net) ==> ParsedFits(net, TrimSpace(host), ip);
        assert Bracketed(ip) == "[" + ip + "]";
        assert Bracketed(ip) + (":" + Itoa(port)) == "[" + ip + "]" + ":" + Itoa(port);
        assert ip + (":" + Itoa(port)) == ip + ":" + Itoa(port);
      } else {
        var name := CanonFQDN(TrimSpace(host));
        assert name + (":" + Itoa(port)) == name + ":" + Itoa(port);
      }
    }
  }
}
