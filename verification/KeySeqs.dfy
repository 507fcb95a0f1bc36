/** Sequences of keys: keeping, cutting, reversing and sorting them. */
module KeySeqs {
  import opened Lex
  import opened KVStores
  import opened Sequences

  function Keep(s: seq<string>, f: string -> bool): seq<string> {
    if s == [] then [] else (if f(s[0]) then [s[0]] else []) + Keep(s[1..], f)
  }

  lemma {:induction false} KeepMembers(s: seq<string>, f: string -> bool)
    ensures forall k :: k in Keep(s, f) <==> k in s && f(k)
  {
    if s == [] {
    } else {
      KeepMembers(s[1..], f);
      assert s == [s[0]] + s[1..];
    }
  }

  lemma {:induction false} KeepAscending(s: seq<string>, f: string -> bool)
    requires Ascending(s)
    ensures Ascending(Keep(s, f))
  {
    if s == [] {
    } else {
      KeepAscending(s[1..], f);
      KeepMembers(s[1..], f);
      var rest := Keep(s[1..], f);
      forall j | 0 <= j < |rest| ensures Less(s[0], rest[j]) {
        assert rest[j] in s[1..];
      }
    }
  }

  lemma {:induction false} KeepConcat(s: seq<string>, t: seq<string>, f: string -> bool)
    ensures Keep(s + t, f) == Keep(s, f) + Keep(t, f)
  {
    if s == [] {
      assert s + t == t;
    } else {
      KeepConcat(s[1..], t, f);
      assert (s + t)[1..] == s[1..] + t && (s + t)[0] == s[0];
      var h := if f(s[0]) then [s[0]] else [];
      assert h + (Keep(s[1..], f) + Keep(t, f)) == (h + Keep(s[1..], f)) + Keep(t, f);
    }
  }

  // Nothing kept before `lo`, everything from there up to `hi`.
  lemma {:induction false} KeepSlice(s: seq<string>, lo: nat, hi: nat, f: string -> bool)
    requires lo <= hi <= |s|
    requires forall i :: 0 <= i < lo ==> !f(s[i])
    requires forall i :: lo <= i < hi ==> f(s[i])
    ensures Keep(s, f) == s[lo..hi] + Keep(s[hi..], f)
  {
    if hi == 0 {
      assert s[hi..] == s;
    } else if lo == 0 {
      SliceWithFirst(s, hi);
      KeepSlice(s[1..], 0, hi - 1, f);
      Associate([s[0]], s[1..][0..hi - 1], Keep(s[hi..], f));
    } else {
      SliceOfRest(s, lo, hi);
      KeepSlice(s[1..], lo - 1, hi - 1, f);
    }
  }

  // Nothing kept from `hi` on.
  lemma {:induction false} KeepNoneFrom(s: seq<string>, hi: nat, f: string -> bool)
    requires hi <= |s| && forall i :: hi <= i < |s| ==> !f(s[i])
    ensures Keep(s[hi..], f) == []
    decreases |s| - hi
  {
    if hi >= |s| {
    } else {
      KeepNoneFrom(s, hi + 1, f);
      assert s[hi..][1..] == s[hi + 1..];
    }
  }

  lemma {:induction false} KeepAll(s: seq<string>, f: string -> bool)
    requires forall k :: k in s ==> f(k)
    ensures Keep(s, f) == s
  {
    if s == [] {
    } else {
      KeepAll(s[1..], f);
      assert s == [s[0]] + s[1..];
    }
  }

  lemma {:induction false} KeepNone(s: seq<string>, f: string -> bool)
    requires forall k :: k in s ==> !f(k)
    ensures Keep(s, f) == []
  {
    if s == [] {
    } else {
      KeepNone(s[1..], f);
    }
  }

  lemma KeepFirst(s: seq<string>, hi: nat, f: string -> bool)
    requires hi <= |s| && forall i :: 0 <= i < |s| ==> (f(s[i]) <==> i < hi)
    ensures Keep(s, f) == s[..hi]
  {
    KeepSlice(s, 0, hi, f);
    KeepNoneFrom(s, hi, f);
    assert s[0..hi] + [] == s[..hi];
  }

  // The first n, or all of a shorter sequence.
  function Take<T>(s: seq<T>, n: nat): seq<T> {
    if n < |s| then s[..n] else s
  }

  // A positive limit cuts; zero or less does not.
  function Limit<T>(s: seq<T>, n: int): seq<T> {
    if 0 < n then Take(s, n) else s
  }

  function Drop<T>(s: seq<T>, n: nat): seq<T> {
    if n < |s| then s[n..] else []
  }

  function Reverse<T>(s: seq<T>): seq<T> {
    seq(|s|, i requires 0 <= i < |s| => s[|s| - 1 - i])
  }

  lemma ReverseAt<T>(s: seq<T>, i: nat)
    requires i < |s|
    ensures Reverse(s)[i] == s[|s| - 1 - i]
  {
  }

  lemma CutLength<T>(all: seq<T>, skip: nat, limit: int, n: nat)
    requires (n > 0 ==> skip + n <= |all|) && (limit > 0 ==> n <= limit)
    requires (limit > 0 && n == limit) || skip + n >= |all|
    ensures |Limit(Drop(Reverse(all), skip), limit)| == n
  {
  }

  lemma CutSize<T>(all: seq<T>, skip: nat, limit: int)
    ensures var left := if skip < |all| then |all| - skip else 0;
            |Limit(Drop(Reverse(all), skip), limit)| == if 0 < limit < left then limit else left
  {
  }

  lemma CutAt<T>(all: seq<T>, skip: nat, limit: int, j: nat)
    requires j < |Limit(Drop(Reverse(all), skip), limit)|
    ensures skip + j < |all| && Limit(Drop(Reverse(all), skip), limit)[j] == all[|all| - 1 - (skip + j)]
  {
    ReverseAt(all, skip + j);
  }

  lemma TakeFirst<T>(x: seq<T>, y: seq<T>, n: nat)
    requires |x| <= n && (|x| == n || y == [])
    ensures Take(x + y, n) == x
  {
  }

  // sort.Strings
  function Insert(k: string, s: seq<string>): (r: seq<string>)
    ensures multiset(r) == multiset(s) + multiset{k}
  {
    if s == [] || AtMost(k, s[0]) then
      [k] + s
    else
      assert s == [s[0]] + s[1..];
      [s[0]] + Insert(k, s[1..])
  }

  lemma PrependSorted(k: string, s: seq<string>)
    requires Sorted(s) && forall j :: 0 <= j < |s| ==> AtMost(k, s[j])
    ensures Sorted([k] + s)
  {
    assert AtMost(k, k) by { Irreflexive(k); }
  }

  lemma InsertFirst(k: string, s: seq<string>)
    requires Sorted(s) && (s != [] ==> AtMost(k, s[0]))
    ensures Sorted([k] + s)
  {
    forall j | 0 <= j < |s| ensures AtMost(k, s[j]) { AtMostTransitive(k, s[0], s[j]); }
    PrependSorted(k, s);
  }

  lemma InsertLater(k: string, s: seq<string>, rest: seq<string>)
    requires Sorted(s) && s != [] && Less(s[0], k) && multiset(rest) == multiset(s[1..]) + multiset{k}
    ensures forall j :: 0 <= j < |rest| ==> AtMost(s[0], rest[j])
  {
    forall j | 0 <= j < |rest| ensures AtMost(s[0], rest[j]) {
      assert rest[j] in multiset(rest);
      Asymmetric(s[0], k);
    }
  }

  lemma {:induction false} InsertSorted(k: string, s: seq<string>)
    requires Sorted(s)
    ensures Sorted(Insert(k, s))
  {
    if s == [] || AtMost(k, s[0]) {
      InsertFirst(k, s);
    } else {
      InsertSorted(k, s[1..]);
      Total(k, s[0]);
      InsertLater(k, s, Insert(k, s[1..]));
      PrependSorted(s[0], Insert(k, s[1..]));
    }
  }

  function SortStrings(s: seq<string>): (r: seq<string>)
    ensures Sorted(r) && multiset(r) == multiset(s)
  {
    if s == [] then [] else
      assert s == [s[0]] + s[1..];
      InsertSorted(s[0], SortStrings(s[1..]));
      Insert(s[0], SortStrings(s[1..]))
  }

  lemma SortMembers(s: seq<string>)
    ensures |SortStrings(s)| == |s|
    ensures forall k :: k in SortStrings(s) <==> k in s
  {
    assert |multiset(SortStrings(s))| == |multiset(s)|;
    forall k ensures k in SortStrings(s) <==> k in s {
      assert k in SortStrings(s) <==> k in multiset(SortStrings(s));
      assert k in s <==> k in multiset(s);
    }
  }

  ghost predicate Distinct<T(!new)>(s: seq<T>) {
    forall i, j :: 0 <= i < j < |s| ==> s[i] != s[j]
  }

  lemma {:induction false} DistinctCounts(s: seq<string>)
    ensures Distinct(s) <==> forall k :: multiset(s)[k] <= 1
  {
    if s == [] {
    } else {
      DistinctCounts(s[1..]);
      assert s == [s[0]] + s[1..];
      assert multiset(s) == multiset{s[0]} + multiset(s[1..]);
      if Distinct(s) {
        assert s[0] !in s[1..];
        assert Distinct(s[1..]);
      } else if Distinct(s[1..]) {
        assert s[0] in s[1..];
        assert multiset(s)[s[0]] >= 2;
      } else {
        var k :| multiset(s[1..])[k] > 1;
        assert multiset(s)[k] > 1;
      }
    }
  }

  lemma SortDistinct(s: seq<string>)
    requires Distinct(s)
    ensures Ascending(SortStrings(s))
  {
    var r := SortStrings(s);
    DistinctCounts(s);
    DistinctCounts(r);
    forall i, j | 0 <= i < j < |r| ensures Less(r[i], r[j]) {
      Total(r[i], r[j]);
    }
  }

  lemma SortAscending(s: seq<string>)
    requires Ascending(s)
    ensures SortStrings(s) == s
  {
    forall i, j | 0 <= i < j < |s| ensures s[i] != s[j] { AscendingMembers(s, i, j); }
    SortDistinct(s);
    SortMembers(s);
    AscendingUnique(SortStrings(s), s);
  }
}
