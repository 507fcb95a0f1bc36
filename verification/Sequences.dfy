/** Facts about plain sequences that the verifier is not left to find by itself. */
module Sequences {
  lemma Associate<T>(a: seq<T>, b: seq<T>, c: seq<T>)
    ensures (a + b) + c == a + (b + c)
  {
  }

  // An element put at the end of the last of three parts.
  lemma AppendLast<T>(a: seq<T>, b: seq<T>, c: seq<T>, x: T)
    ensures a + b + (c + [x]) == a + b + c + [x]
    ensures a + (b + (c + [x])) + [] == a + b + c + [x]
  {
    Associate(a + b, c, [x]);
    Associate(a, b, c + [x]);
  }

  // The first part moves from the second place to the first.
  lemma MoveFirst<T>(a: seq<T>, b: seq<T>, c: seq<T>)
    ensures [] + (a + b) + c == a + b + c
  {
    assert [] + (a + b) == a + b;
  }

  // The first part is taken off.
  lemma DropFirst<T>(a: seq<T>, b: seq<T>, c: seq<T>)
    ensures a + b + c == a + ([] + b + c)
  {
    assert [] + b == b;
    Associate(a, b, c);
  }

  lemma SliceOfRest<T>(s: seq<T>, lo: nat, hi: nat)
    requires 0 < lo <= hi <= |s|
    ensures s[1..][lo - 1..hi - 1] == s[lo..hi] && s[1..][hi - 1..] == s[hi..]
  {
  }

  lemma SliceWithFirst<T>(s: seq<T>, hi: nat)
    requires 0 < hi <= |s|
    ensures s[0..hi] == [s[0]] + s[1..][0..hi - 1] && s[1..][hi - 1..] == s[hi..]
  {
  }
}
