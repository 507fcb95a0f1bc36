/** internal/kvstore/kvstore.go: LevelDB as an ordered map with failing writes and snapshot iterators,
    and the binary search of Go's sort package that the receipt store uses beside it. */
module KVStores {
  import opened Options
  import opened Lex

  ghost predicate Sorted(s: seq<string>) {
    forall i, j :: 0 <= i <= j < |s| ==> AtMost(s[i], s[j])
  }

  lemma AscendingIsSorted(s: seq<string>)
    requires Ascending(s)
    ensures Sorted(s)
  {
    forall i, j | 0 <= i <= j < |s| ensures AtMost(s[i], s[j]) {
      AscendingMembers(s, j, i);
    }
  }

  // What the callers of sort.SearchStrings want of its answer.
  ghost predicate Splits(a: seq<string>, x: string, i: nat) {
    && i <= |a|
    && (forall k :: 0 <= k < i ==> Less(a[k], x))
    && (forall k :: i <= k < |a| ==> AtMost(x, a[k]))
  }

  // sort.SearchStrings
  method SearchStrings(a: seq<string>, x: string) returns (i: nat)
    ensures i <= |a|
    ensures Sorted(a) ==> Splits(a, x, i)
  {
    i := 0;
    var j := |a|;
    while i < j
      invariant 0 <= i <= j <= |a|
      invariant Sorted(a) ==> forall k :: 0 <= k < i ==> Less(a[k], x)
      invariant Sorted(a) ==> forall k :: j <= k < |a| ==> AtMost(x, a[k])
    {
      var h := (i + j) / 2;
      if Less(a[h], x) {
        forall k | Sorted(a) && 0 <= k <= h ensures Less(a[k], x) { AtMostLess(a[k], a[h], x); }
        i := h + 1;
      } else {
        forall k | Sorted(a) && h <= k < |a| ensures AtMost(x, a[k]) { AtMostTransitive(x, a[h], a[k]); }
        j := h;
      }
    }
  }

  class KVStore<V(==)> {
    var keys: seq<string>
    var vals: map<string, V>

    ghost predicate Valid()
      reads this
    {
      Ascending(keys) && forall k :: k in keys <==> k in vals
    }

    constructor ()
      ensures Valid() && vals == map[]
    {
      keys, vals := [], map[];
    }

    // A failing write changes nothing.
    method Put(key: string, val: V, ok: bool) returns (err: bool)
      requires Valid()
      modifies this
      ensures Valid() && err == !ok
      ensures vals == if ok then old(vals)[key := val] else old(vals)
    {
      if !ok {
        return true;
      }
      AscendingIsSorted(keys);
      var i := SearchStrings(keys, key);
      if !(i < |keys| && keys[i] == key) {
        ghost var before := keys;
        forall k | i <= k < |keys| ensures Less(key, keys[k]) {
          Total(key, keys[k]);
          if k > i { AtMostLess(key, keys[i], keys[k]); }
        }
        keys := keys[..i] + [key] + keys[i..];
        assert before == before[..i] + before[i..];
        assert forall k :: k in keys <==> k == key || k in before;
      }
      vals := vals[key := val];
      err := false;
    }

    method Get(key: string) returns (val: Option<V>)
      ensures val == if key in vals then Some(vals[key]) else None
    {
      val := if key in vals then Some(vals[key]) else None;
    }

    // NewIterator, or NewIteratorWithRange from `start` on when that is not empty.
    method NewIterator(start: string) returns (itr: Iterator<V>)
      requires Valid()
      ensures fresh(itr) && itr.Valid() && itr.vals == vals && itr.pos == -1
      ensures forall k :: k in itr.keys <==> k in keys && AtMost(start, k)
      ensures start == "" ==> itr.keys == keys
    {
      AscendingIsSorted(keys);
      var i := SearchStrings(keys, start);
      assert keys == keys[..i] + keys[i..];
      assert i > 0 ==> Less(keys[0], start);
      itr := new Iterator(keys[i..], vals);
    }
  }

  // A snapshot of the store: the keys in range, in order, and the position between -1 and the end.
  class Iterator<V(==)> {
    const keys: seq<string>
    const vals: map<string, V>
    var pos: int

    ghost predicate Valid()
      reads this
    {
      Ascending(keys) && (forall k :: k in keys ==> k in vals) && -1 <= pos <= |keys|
    }

    constructor (keys: seq<string>, vals: map<string, V>)
      requires Ascending(keys) && forall k :: k in keys ==> k in vals
      ensures Valid() && this.keys == keys && this.vals == vals && pos == -1
    {
      this.keys, this.vals, pos := keys, vals, -1;
    }

    method Seek(key: string) returns (found: bool)
      requires Valid()
      modifies this
      ensures Valid() && found == (pos < |keys|) && 0 <= pos && Splits(keys, key, pos)
    {
      AscendingIsSorted(keys);
      pos := SearchStrings(keys, key);
      found := pos < |keys|;
    }

    method Last() returns (found: bool)
      requires Valid()
      modifies this
      ensures Valid() && pos == |keys| - 1 && found == (keys != [])
    {
      pos := |keys| - 1;
      found := pos >= 0;
    }

    method Next() returns (found: bool)
      requires Valid()
      modifies this
      ensures Valid() && pos == (if old(pos) < |keys| then old(pos) + 1 else old(pos)) && found == (pos < |keys|)
    {
      if pos < |keys| {
        pos := pos + 1;
      }
      found := pos < |keys|;
    }

    method Prev() returns (found: bool)
      requires Valid()
      modifies this
      ensures Valid() && pos == (if old(pos) >= 0 then old(pos) - 1 else old(pos)) && found == (pos >= 0)
    {
      if pos >= 0 {
        pos := pos - 1;
      }
      found := pos >= 0;
    }
  }
}
