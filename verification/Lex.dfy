/** The byte order LevelDB keeps its keys in, and what it does to prefixes and decimal numbers. */
module Lex {
  predicate Less(a: string, b: string) {
    b != [] && (a == [] || a[0] < b[0] || (a[0] == b[0] && Less(a[1..], b[1..])))
  }

  predicate AtMost(a: string, b: string) { !Less(b, a) }

  lemma {:induction false} Irreflexive(a: string)
    ensures !Less(a, a)
  {
    if a == [] {
    } else {
      Irreflexive(a[1..]);
    }
  }

  lemma {:induction false} Transitive(a: string, b: string, c: string)
    requires Less(a, b) && Less(b, c)
    ensures Less(a, c)
  {
    if a == [] || a[0] != b[0] || b[0] != c[0] {
    } else {
      Transitive(a[1..], b[1..], c[1..]);
    }
  }

  lemma {:induction false} Total(a: string, b: string)
    ensures Less(a, b) || a == b || Less(b, a)
  {
    if a == [] || b == [] || a[0] != b[0] {
    } else {
      Total(a[1..], b[1..]);
      assert a == [a[0]] + a[1..] && b == [b[0]] + b[1..];
    }
  }

  lemma Asymmetric(a: string, b: string)
    requires Less(a, b)
    ensures !Less(b, a) && a != b
  {
    Irreflexive(a);
    if Less(b, a) { Transitive(a, b, a); }
  }

  // Order mixed of strict and weak steps.
  lemma AtMostLess(a: string, b: string, c: string)
    requires AtMost(a, b) && Less(b, c)
    ensures Less(a, c)
  {
    Total(a, b);
    if Less(a, b) { Transitive(a, b, c); }
  }

  lemma LessAtMost(a: string, b: string, c: string)
    requires Less(a, b) && AtMost(b, c)
    ensures Less(a, c)
  {
    Total(b, c);
    if Less(b, c) { Transitive(a, b, c); }
  }

  lemma AtMostTransitive(a: string, b: string, c: string)
    requires AtMost(a, b) && AtMost(b, c)
    ensures AtMost(a, c)
  {
    if Less(c, a) { LessAtMost(c, a, b); }
  }

  // --- prefixes (Dafny's <= on sequences) ---

  lemma {:induction false} CommonPrefix(p: string, a: string, b: string)
    ensures Less(p + a, p + b) <==> Less(a, b)
  {
    if p == [] {
      assert p + a == a && p + b == b;
    } else {
      CommonPrefix(p[1..], a, b);
      assert (p + a)[1..] == p[1..] + a && (p + b)[1..] == p[1..] + b;
    }
  }

  lemma {:induction false} PrefixFirst(p: string, k: string)
    requires p <= k
    ensures AtMost(p, k)
  {
    if p == [] {
    } else {
      PrefixFirst(p[1..], k[1..]);
    }
  }

  // The keys with a common prefix are contiguous: nothing between the prefix and one of them lacks it.
  lemma {:induction false} PrefixContiguous(p: string, y: string, z: string)
    requires AtMost(p, y) && AtMost(y, z) && p <= z
    ensures p <= y
  {
    if p == [] {
    } else {
      Total(p, y);
      Total(y, z);
      if y[0] == p[0] {
        assert AtMost(y[1..], z[1..]) by { Irreflexive(y[1..]); }
        assert AtMost(p[1..], y[1..]) by { Irreflexive(y[1..]); }
        PrefixContiguous(p[1..], y[1..], z[1..]);
        assert p == [p[0]] + p[1..] && y == [y[0]] + y[1..];
      }
    }
  }

  // Strings of one width decide the order before anything that follows them.
  lemma {:induction false} EqualWidth(u: string, v: string, x: string, y: string)
    requires |u| == |v|
    ensures Less(u + x, v + y) <==> Less(u, v) || (u == v && Less(x, y))
  {
    if u == [] {
      assert u + x == x && v + y == y;
    } else {
      EqualWidth(u[1..], v[1..], x, y);
      assert (u + x)[1..] == u[1..] + x && (v + y)[1..] == v[1..] + y;
      assert u == v <==> u[0] == v[0] && u[1..] == v[1..] by {
        assert u == [u[0]] + u[1..] && v == [v[0]] + v[1..];
      }
    }
  }

  // --- decimals, as "%d" prints them ---

  function Digit(d: nat): char
    requires d < 10
  {
    "0123456789"[d]
  }

  function Decimal(n: nat): (s: string)
    ensures s != [] && ':' !in s
  {
    if n < 10 then [Digit(n)] else Decimal(n / 10) + [Digit(n % 10)]
  }

  lemma LastDigit(u: string, v: string, c: char, d: char)
    ensures u + [c] == v + [d] <==> u == v && c == d
  {
    assert (u + [c])[..|u|] == u && (v + [d])[..|v|] == v;
    assert |u| == |v| ==> (u + [c])[|u|] == c && (v + [d])[|u|] == d;
  }

  lemma DigitOrder(a: nat, b: nat)
    requires a < 10 && b < 10
    ensures Less([Digit(a)], [Digit(b)]) <==> a < b
    ensures Digit(a) == Digit(b) <==> a == b
  {
    assert Less([Digit(a)], [Digit(b)]) <==> Digit(a) < Digit(b);
  }

  lemma TensFirst(a: nat, b: nat)
    ensures a < b <==> a / 10 < b / 10 || (a / 10 == b / 10 && a % 10 < b % 10)
    ensures a == b <==> a / 10 == b / 10 && a % 10 == b % 10
  {
  }

  // Equal-width decimals sort numerically.
  lemma {:induction false} DecimalOrder(a: nat, b: nat)
    requires |Decimal(a)| == |Decimal(b)|
    ensures Less(Decimal(a), Decimal(b)) <==> a < b
    ensures Decimal(a) == Decimal(b) <==> a == b
    decreases a + b
  {
    if a < 10 || b < 10 {
      DigitOrder(a, b);
    } else {
      DecimalOrder(a / 10, b / 10);
      EqualWidth(Decimal(a / 10), Decimal(b / 10), [Digit(a % 10)], [Digit(b % 10)]);
      LastDigit(Decimal(a / 10), Decimal(b / 10), Digit(a % 10), Digit(b % 10));
      DigitOrder(a % 10, b % 10);
      TensFirst(a, b);
    }
  }

  // --- strictly ascending sequences of keys ---

  ghost predicate Ascending(s: seq<string>) {
    forall i, j :: 0 <= i < j < |s| ==> Less(s[i], s[j])
  }

  lemma AscendingMembers(s: seq<string>, i: nat, j: nat)
    requires Ascending(s) && i < |s| && j < |s|
    ensures Less(s[i], s[j]) <==> i < j
    ensures s[i] == s[j] <==> i == j
  {
    if i == j { Irreflexive(s[i]); }
    else if i < j { Asymmetric(s[i], s[j]); }
    else { Asymmetric(s[j], s[i]); }
  }

  // An ascending sequence is determined by its members.
  lemma {:induction false} AscendingUnique(s: seq<string>, t: seq<string>)
    requires Ascending(s) && Ascending(t)
    requires forall k :: k in s <==> k in t
    ensures s == t
  {
    if s == [] {
      FirstIn(t);
    } else if t == [] {
      FirstIn(s);
    } else {
      var m, n := |s| - 1, |t| - 1;
      assert s[m] in t && t[n] in s;
      var i :| 0 <= i < |t| && t[i] == s[m];
      var j :| 0 <= j < |s| && s[j] == t[n];
      AscendingMembers(s, j, m);
      AscendingMembers(t, i, n);
      Asymmetries(s[m], t[n]);
      assert s[m] == t[n];
      forall k ensures k in s[..m] <==> k in t[..n] {
        DropLast(s, k);
        DropLast(t, k);
      }
      AscendingUnique(s[..m], t[..n]);
      assert s == s[..m] + [s[m]] && t == t[..n] + [t[n]];
    }
  }

  lemma FirstIn(s: seq<string>)
    ensures s != [] ==> s[0] in s
  {
  }

  lemma Asymmetries(a: string, b: string)
    ensures !(Less(a, b) && Less(b, a))
  {
    if Less(a, b) { Asymmetric(a, b); }
  }

  lemma DropLast(s: seq<string>, k: string)
    requires s != [] && Ascending(s)
    ensures k in s[..|s| - 1] <==> k in s && k != s[|s| - 1]
  {
    if k in s[..|s| - 1] {
      var i :| 0 <= i < |s| - 1 && s[i] == k;
      AscendingMembers(s, i, |s| - 1);
    }
  }
}
