/** The read loops of internal/rest/receipt/leveldb.go: prefix scans, binary-search bounds, intersection
    and the reverse walk, each against the plain sequence it computes. */
module ReceiptScans {
  import opened Options
  import opened Lex
  import opened KVStores
  import opened KeySeqs
  import opened ReceiptLog
  import opened ReceiptQuery

  // --- prefix scans ---

  function Under(p: string): string -> bool { k => p <= k }

  function BytesAt(vals: map<string, Value>, k: string): string {
    if k in vals then Bytes(vals[k]) else ""
  }

  function BytesAll(vals: map<string, Value>, keys: seq<string>): (r: seq<string>)
    ensures |r| == |keys| && forall i :: 0 <= i < |keys| ==> r[i] == BytesAt(vals, keys[i])
  {
    if keys == [] then [] else BytesAll(vals, keys[..|keys| - 1]) + [BytesAt(vals, keys[|keys| - 1])]
  }

  lemma BeforePrefix(p: string, k: string)
    requires Less(k, p)
    ensures !(p <= k)
  {
    if p <= k { PrefixFirst(p, k); }
  }

  lemma AfterPrefix(keys: seq<string>, p: string, hi: nat, i: nat)
    requires Ascending(keys) && hi <= i < |keys| && AtMost(p, keys[hi]) && !(p <= keys[hi])
    ensures !(p <= keys[i])
  {
    if p <= keys[i] {
      AscendingMembers(keys, i, hi);
      PrefixContiguous(p, keys[hi], keys[i]);
    }
  }

  // Ascending keys with a prefix are the ones from the seek position up to the first that lacks it.
  lemma PrefixSlice(keys: seq<string>, p: string, lo: nat, hi: nat)
    requires Ascending(keys) && Splits(keys, p, lo) && lo <= hi <= |keys|
    requires forall i :: lo <= i < hi ==> p <= keys[i]
    ensures Keep(keys, Under(p)) == keys[lo..hi] + Keep(keys[hi..], Under(p))
    ensures hi == |keys| || !(p <= keys[hi]) ==> Keep(keys[hi..], Under(p)) == []
  {
    forall i | 0 <= i < lo ensures !Under(p)(keys[i]) { BeforePrefix(p, keys[i]); }
    KeepSlice(keys, lo, hi, Under(p));
    if hi == |keys| || !(p <= keys[hi]) {
      forall i | hi <= i < |keys| ensures !Under(p)(keys[i]) { AfterPrefix(keys, p, hi, i); }
      KeepNoneFrom(keys, hi, Under(p));
    }
  }

  predicate Starts(p: string, k: string) { p <= k }

  ghost predicate AllStart(keys: seq<string>, p: string, lo: nat, count: nat)
    requires lo + count <= |keys|
  {
    forall i :: lo <= i < lo + count ==> Starts(p, keys[i])
  }

  // The scan stops at the limit, or where the keys with the prefix end.
  ghost predicate Scanned(keys: seq<string>, p: string, lo: nat, count: nat, limit: int) {
    && lo + count <= |keys| && count <= ScanLimit(limit) && AllStart(keys, p, lo, count)
    && (count == ScanLimit(limit) || lo + count == |keys| || !Starts(p, keys[lo + count]))
  }

  lemma ScanTaken(keys: seq<string>, p: string, lo: nat, count: nat, limit: int)
    requires Ascending(keys) && Splits(keys, p, lo) && Scanned(keys, p, lo, count, limit)
    ensures Take(Keep(keys, Under(p)), ScanLimit(limit)) == keys[lo..lo + count]
  {
    forall i | lo <= i < lo + count ensures p <= keys[i] { assert Starts(p, keys[i]); }
    PrefixSlice(keys, p, lo, lo + count);
    TakeFirst(keys[lo..lo + count], Keep(keys[lo + count..], Under(p)), ScanLimit(limit));
  }

  lemma NoneStarts(keys: seq<string>, p: string, lo: nat, i: nat)
    requires Ascending(keys) && lo <= i < |keys| && AtMost(p, keys[lo]) && !Starts(p, keys[lo])
    ensures !Starts(p, keys[i])
  {
    AfterPrefix(keys, p, lo, i);
  }

  ghost predicate Values(keys: seq<string>, vals: map<string, Value>, lo: nat, found: seq<string>)
    requires lo + |found| <= |keys|
  {
    forall i :: 0 <= i < |found| ==> found[i] == BytesAt(vals, keys[lo + i])
  }

  // The loop of getLookupKeysByPrefix, after the key sought has been looked at.
  method ScanOn(itr: Iterator<Value>, prefix: string, limit: int, first: seq<string>) returns (lookupKeys: seq<string>)
    requires itr.Valid() && 0 <= itr.pos < |itr.keys| && AtMost(prefix, itr.keys[itr.pos])
    requires first == if Starts(prefix, itr.keys[itr.pos]) then [BytesAt(itr.vals, itr.keys[itr.pos])] else []
    modifies itr
    ensures itr.Valid() && Scanned(itr.keys, prefix, old(itr.pos), |lookupKeys|, limit)
    ensures Values(itr.keys, itr.vals, old(itr.pos), lookupKeys)
  {
    ghost var lo := itr.pos;
    var keys := itr.keys;
    lookupKeys := first;
    var count := |first|;
    var more := itr.Next();
    while more
      invariant itr.Valid() && more == (itr.pos < |keys|) && count == |lookupKeys|
      invariant itr.pos == lo + if count == 0 then 1 else count
      invariant lo + count <= |keys| && count <= ScanLimit(limit) && AllStart(keys, prefix, lo, count)
      invariant count == 0 ==> !Starts(prefix, keys[lo])
      invariant Values(keys, itr.vals, lo, lookupKeys)
      decreases |keys| - itr.pos
    {
      if count == 0 { NoneStarts(keys, prefix, lo, itr.pos); }
      if count < limit {
        if Starts(prefix, keys[itr.pos]) {
          lookupKeys := lookupKeys + [Bytes(itr.vals[keys[itr.pos]])];
        } else {
          break;
        }
      } else {
        break;
      }
      count := count + 1;
      more := itr.Next();
    }
  }

  method GetLookupKeysByPrefix(itr: Iterator<Value>, prefix: string, limit: int) returns (lookupKeys: seq<string>)
    requires itr.Valid()
    modifies itr
    ensures itr.Valid()
    ensures lookupKeys == BytesAll(itr.vals, Take(Keep(itr.keys, Under(prefix)), ScanLimit(limit)))
    // As many as there are, up to the limit; one, if there is one, even when the limit is lower.
    ensures var hits, most := |Keep(itr.keys, Under(prefix))|, if limit < 1 then 1 else limit;
            |lookupKeys| == if hits < most then hits else most
  {
    lookupKeys := [];
    var found := itr.Seek(prefix);
    ghost var lo := itr.pos;
    if found {
      if Starts(prefix, itr.keys[itr.pos]) {
        lookupKeys := lookupKeys + [Bytes(itr.vals[itr.keys[itr.pos]])];
      }
      lookupKeys := ScanOn(itr, prefix, limit, lookupKeys);
    }
    ScanTaken(itr.keys, prefix, lo, |lookupKeys|, limit);
  }

  lemma HitsStripped(keys: seq<string>, vals: map<string, Value>, p: string, i: nat)
    requires i < |Keep(keys, Under(p))|
    requires forall x :: p + x in keys ==> BytesAt(vals, p + x) == x
    ensures var h := Keep(keys, Under(p))[i]; h in keys && h == p + BytesAt(vals, h)
  {
    var h := Keep(keys, Under(p))[i];
    KeepMembers(keys, Under(p));
    assert h in Keep(keys, Under(p));
    assert h == p + h[|p|..];
  }

  lemma HitsAscending(hits: seq<string>, found: seq<string>, p: string)
    requires Ascending(hits) && |hits| == |found| && forall i :: 0 <= i < |hits| ==> hits[i] == p + found[i]
    ensures Ascending(found)
  {
    forall i, j | 0 <= i < j < |found| ensures Less(found[i], found[j]) {
      AscendingMembers(hits, i, j);
      CommonPrefix(p, found[i], found[j]);
    }
  }

  // The hits of an index scan, stripped of the prefix, are the lookup keys in order.
  lemma IndexScan(keys: seq<string>, vals: map<string, Value>, p: string, expected: seq<string>, n: nat)
    requires Ascending(keys) && Ascending(expected)
    requires forall x :: x in expected <==> p + x in keys
    requires forall x :: p + x in keys ==> BytesAt(vals, p + x) == x
    ensures BytesAll(vals, Take(Keep(keys, Under(p)), n)) == Take(expected, n)
  {
    var hits := Keep(keys, Under(p));
    var found := BytesAll(vals, hits);
    forall i | 0 <= i < |hits| ensures hits[i] == p + found[i] && found[i] in expected {
      HitsStripped(keys, vals, p, i);
    }
    assert Ascending(found) by {
      KeepAscending(keys, Under(p));
      HitsAscending(hits, found, p);
    }
    forall x | x in expected ensures x in found {
      KeepMembers(keys, Under(p));
      var i :| 0 <= i < |hits| && hits[i] == p + x;
      assert found[i] == x by { SamePrefix(p, found[i], x); }
    }
    AscendingUnique(found, expected);
    BytesTake(vals, hits, n);
  }

  lemma BytesTake(vals: map<string, Value>, keys: seq<string>, n: nat)
    ensures BytesAll(vals, Take(keys, n)) == Take(BytesAll(vals, keys), n)
  {
  }

  lemma FromScan(log: seq<Entry>, keys: seq<string>, vals: map<string, Value>, a: string, n: nat)
    requires LogOk(log) && FromApart(log, a) && Represents(log, keys, vals)
    ensures BytesAll(vals, Take(Keep(keys, Under("from:" + a + ":")), n)) == Take(KeysOf(log, SentFrom(a)), n)
  {
    var p := "from:" + a + ":";
    KeysOfAscending(log, SentFrom(a));
    KeysOfMembers(log, SentFrom(a));
    forall x ensures x in KeysOf(log, SentFrom(a)) <==> p + x in keys
             ensures p + x in keys ==> BytesAt(vals, p + x) == x
    {
      FromEntries(log, a, x);
    }
    IndexScan(keys, vals, p, KeysOf(log, SentFrom(a)), n);
  }

  lemma ToScan(log: seq<Entry>, keys: seq<string>, vals: map<string, Value>, a: string, n: nat)
    requires LogOk(log) && ToApart(log, a) && Represents(log, keys, vals)
    ensures BytesAll(vals, Take(Keep(keys, Under("to:" + a + ":")), n)) == Take(KeysOf(log, SentTo(a)), n)
  {
    var p := "to:" + a + ":";
    KeysOfAscending(log, SentTo(a));
    KeysOfMembers(log, SentTo(a));
    forall x ensures x in KeysOf(log, SentTo(a)) <==> p + x in keys
             ensures p + x in keys ==> BytesAt(vals, p + x) == x
    {
      ToEntries(log, a, x);
    }
    IndexScan(keys, vals, p, KeysOf(log, SentTo(a)), n);
  }

  // --- intersection and bounds by binary search ---

  lemma SearchFinds(arr: seq<string>, x: string, i: nat)
    requires Sorted(arr) && Splits(arr, x, i)
    ensures x in arr <==> i < |arr| && arr[i] == x
  {
    if x in arr {
      var k :| 0 <= k < |arr| && arr[k] == x;
      Irreflexive(x);
      assert i <= k;
      Total(arr[i], x);
    }
  }

  method Intersect(arr1: seq<string>, arr2: seq<string>) returns (both: seq<string>)
    ensures Sorted(arr2) ==> both == Keep(arr1, Among(arr2))
  {
    both := [];
    for i := 0 to |arr1|
      invariant Sorted(arr2) ==> both == Keep(arr1[..i], Among(arr2))
    {
      var from := arr1[i];
      var idx := SearchStrings(arr2, from);
      if Sorted(arr2) { SearchFinds(arr2, from, idx); }
      assert arr1[..i + 1] == arr1[..i] + [from];
      KeepConcat(arr1[..i], [from], Among(arr2));
      if idx < |arr2| && arr2[idx] == from {
        both := both + [from];
      }
    }
    assert arr1[..|arr1|] == arr1;
  }

  lemma {:induction false} KeepTwice(s: seq<string>, f: string -> bool, g: string -> bool, h: string -> bool)
    requires forall k :: h(k) == (f(k) && g(k))
    ensures Keep(Keep(s, f), g) == Keep(s, h)
  {
    if s == [] {
    } else {
      KeepTwice(s[1..], f, g, h);
      KeepConcat(if f(s[0]) then [s[0]] else [], Keep(s[1..], f), g);
    }
  }

  lemma LowerCut(arr: seq<string>, x: string, i: nat)
    requires Splits(arr, x, i)
    ensures Keep(arr, InBounds(x, "")) == if x == "" then arr else arr[i..]
  {
    if x == "" {
      KeepAll(arr, InBounds(x, ""));
    } else {
      KeepSlice(arr, i, |arr|, InBounds(x, ""));
    }
  }

  lemma UpperCut(arr: seq<string>, x: string, i: nat)
    requires Splits(arr, x, i)
    ensures Keep(arr, InBounds("", x)) == if x == "" then arr else arr[..i]
  {
    if x == "" {
      KeepAll(arr, InBounds("", x));
    } else {
      KeepSlice(arr, 0, i, InBounds("", x));
      KeepNoneFrom(arr, i, InBounds("", x));
    }
  }

  method ApplyBound(arr: seq<string>, start: string, end: string) returns (cut: seq<string>)
    ensures Sorted(arr) ==> cut == Keep(arr, InBounds(start, end))
  {
    cut := arr;
    if start != "" {
      var startPos := SearchStrings(cut, start);
      if Sorted(arr) { LowerCut(arr, start, startPos); }
      cut := cut[startPos..];
    } else {
      KeepAll(arr, InBounds("", ""));
    }
    ghost var mid := cut;
    if end != "" {
      var endPos := SearchStrings(cut, end);
      if Sorted(arr) { UpperCut(mid, end, endPos); }
      cut := cut[..endPos];
    } else {
      KeepAll(mid, InBounds("", ""));
    }
    KeepTwice(arr, InBounds(start, ""), InBounds("", end), InBounds(start, end));
  }

  // --- the reverse walk over an unfiltered page ---

  function FirstRecord(keys: seq<string>): (m: nat)
    ensures m <= |keys|
    ensures forall i :: 0 <= i < m ==> !IsRecordKey(keys[i])
    ensures m < |keys| ==> IsRecordKey(keys[m])
  {
    if keys == [] || IsRecordKey(keys[0]) then 0 else
      assert forall i :: 1 <= i < |keys| ==> keys[i] == keys[1..][i - 1];
      1 + FirstRecord(keys[1..])
  }

  lemma {:induction false} CeilingAt(keys: seq<string>, start: string, p: nat)
    requires Splits(keys, start, p)
    ensures Ceiling(keys, start) == if p < |keys| then Some(keys[p]) else None
  {
    if p == 0 {
    } else {
      assert forall i :: 1 <= i < |keys| ==> keys[i] == keys[1..][i - 1];
      CeilingAt(keys[1..], start, p - 1);
    }
  }

  ghost predicate RecordsFrom(keys: seq<string>, m: nat) {
    m <= |keys| && forall i :: 0 <= i < |keys| ==> (IsRecordKey(keys[i]) <==> m <= i)
  }

  lemma RecordsSlice(keys: seq<string>, m: nat)
    requires RecordsFrom(keys, m)
    ensures Keep(keys, IsRecord()) == keys[m..]
  {
    KeepSlice(keys, m, |keys|, IsRecord());
    assert keys[m..] + [] == keys[m..];
  }

  // Where Last or Seek leaves the iterator.
  ghost predicate Positioned(keys: seq<string>, start: string, p: int) {
    if start == "" then p == |keys| - 1 else p >= 0 && Splits(keys, start, p)
  }

  lemma RecordsUpTo(keys: seq<string>, m: nat, p: nat)
    requires Ascending(keys) && m <= |keys| && p < |keys|
    ensures Keep(keys[m..], NotAfter(keys[p])) == if m <= p then keys[m..p + 1] else []
  {
    var records, hi := keys[m..], if m <= p then p + 1 - m else 0;
    forall i | 0 <= i < |records| ensures NotAfter(keys[p])(records[i]) <==> i < hi {
      AscendingMembers(keys, p, m + i);
    }
    KeepFirst(records, hi, NotAfter(keys[p]));
    assert records[..hi] == if m <= p then keys[m..p + 1] else [];
  }

  // A page is cut from the records up to the position the iterator was set to.
  lemma UpToSlice(keys: seq<string>, start: string, p: int, m: nat)
    requires Ascending(keys) && RecordsFrom(keys, m) && Positioned(keys, start, p)
    ensures UpTo(keys, start) == if m <= p < |keys| then keys[m..p + 1] else []
  {
    RecordsSlice(keys, m);
    if start == "" {
      assert p >= 0 ==> keys[m..] == keys[m..p + 1];
    } else {
      CeilingAt(keys, start, p);
      if p < |keys| { RecordsUpTo(keys, m, p); }
    }
  }

  lemma FromEnd<T>(s: seq<T>, m: nat, p: nat, i: nat)
    requires m <= p < |s| && i <= p - m
    ensures |s[m..p + 1]| == p + 1 - m && s[m..p + 1][p - m - i] == s[p - i]
  {
  }

  // The walk's i-th key is the i-th from the end of what the page is cut from, as long as it meets records.
  lemma PageAt(keys: seq<string>, start: string, p: int, i: nat)
    requires Ascending(keys) && RecordsLast(keys) && Positioned(keys, start, p)
    ensures var all := UpTo(keys, start);
            if 0 <= p - i && p < |keys| && IsRecordKey(keys[p - i])
            then i < |all| && all[|all| - 1 - i] == keys[p - i] else i >= |all|
  {
    var m := FirstRecord(keys);
    assert RecordsFrom(keys, m);
    UpToSlice(keys, start, p, m);
    if m <= p - i && p < |keys| { FromEnd(keys, m, p, i); }
  }

  ghost predicate Readable(log: seq<Entry>, keys: seq<string>, vals: map<string, Value>) {
    RecordsLast(keys) && Decodable(keys, vals) && forall k :: k in keys ==> k in vals && Lookup(log, k) == Some(vals[k])
  }

  // --- the loop of getReceiptsNoFilter ---

  function RowAt(vals: map<string, Value>, key: string): Option<Row> {
    if key in vals && vals[key].Doc? then Some(Row(Some(key), vals[key].receipt)) else None
  }

  // The walk down from position `p` passed `skip` keys and then collected records, until it had enough
  // of them, met a key that is none, or ran out of keys.
  ghost predicate Walked(keys: seq<string>, vals: map<string, Value>, p: int, skip: nat, results: seq<Row>) {
    forall j :: 0 <= j < |results| ==> Collected(keys, vals, p - skip - j, results[j])
  }

  predicate Collected(keys: seq<string>, vals: map<string, Value>, pos: int, row: Row) {
    0 <= pos < |keys| && IsRecordKey(keys[pos]) && RowAt(vals, keys[pos]) == Some(row)
  }

  ghost predicate Stopped(keys: seq<string>, p: int, skip: nat, limit: int, n: nat) {
    && (limit > 0 ==> n <= limit)
    && ((limit > 0 && n == limit) || !(0 <= p - skip - n < |keys|) || !IsRecordKey(keys[p - skip - n]))
  }

  function NoLess0(n: int): nat { if n < 0 then 0 else n }

  lemma WalkMore(keys: seq<string>, vals: map<string, Value>, p: int, skip: nat, results: seq<Row>, row: Row)
    requires Walked(keys, vals, p, skip, results) && Collected(keys, vals, p - skip - |results|, row)
    ensures Walked(keys, vals, p, skip, results + [row])
  {
    var more := results + [row];
    forall j | 0 <= j < |more| ensures Collected(keys, vals, p - skip - j, more[j]) {
      if j < |results| { assert more[j] == results[j]; }
    }
  }

  method WalkBack(itr: Iterator<Value>, skip: int, limit: int) returns (results: seq<Row>)
    requires itr.Valid()
    modifies itr
    ensures Decodable(itr.keys, itr.vals) && old(itr.pos) < |itr.keys| ==>
              Walked(itr.keys, itr.vals, old(itr.pos), NoLess0(skip), results)
              && Stopped(itr.keys, old(itr.pos), NoLess0(skip), limit, |results|)
    ensures old(itr.pos) == |itr.keys| ==> results == []
  {
    results := [];
    var index := 0;
    ghost var p := itr.pos;
    var valid := 0 <= itr.pos < |itr.keys|;
    while valid
      invariant itr.Valid() && itr.pos <= p && valid == (0 <= itr.pos && p < |itr.keys|)
      invariant p == |itr.keys| ==> results == []
      invariant Decodable(itr.keys, itr.vals) ==>
                  && index == p - itr.pos
                  && |results| == (if index <= skip then 0 else index - NoLess0(skip))
                  && (limit > 0 ==> |results| <= limit)
                  && Walked(itr.keys, itr.vals, p, NoLess0(skip), results)
      decreases itr.pos
    {
      if limit > 0 && |results| >= limit {
        break;
      }
      var key := itr.keys[itr.pos];
      assert key in itr.keys;
      if index >= skip {
        if !IsRecordKey(key) {
          break;
        }
        var row := RowAt(itr.vals, key);
        if row.Some? {
          if Decodable(itr.keys, itr.vals) {
            WalkMore(itr.keys, itr.vals, p, NoLess0(skip), results, row.value);
          }
          results := results + [row.value];
          index := index + 1;
        }
      } else {
        index := index + 1;
      }
      valid := itr.Prev();
    }
  }

  // Stopping there, the walk has collected exactly its page.
  lemma WalkLength(keys: seq<string>, vals: map<string, Value>, start: string, p: int, skip: nat, limit: int,
                   results: seq<Row>)
    requires Ascending(keys) && RecordsLast(keys) && Positioned(keys, start, p) && p < |keys|
    requires Walked(keys, vals, p, skip, results) && Stopped(keys, p, skip, limit, |results|)
    ensures |PageKeys(keys, skip, limit, start)| == |results|
  {
    if results != [] {
      var j := |results| - 1;
      assert Collected(keys, vals, p - skip - j, results[j]);
      PageAt(keys, start, p, skip + j);
    }
    PageAt(keys, start, p, skip + |results|);
    var all := UpTo(keys, start);
    assert |results| > 0 ==> skip + |results| - 1 < |all|;
    CutLength(all, skip, limit, |results|);
  }

  lemma PageKeyAt(keys: seq<string>, start: string, p: int, skip: nat, limit: int, j: nat)
    requires Ascending(keys) && RecordsLast(keys) && Positioned(keys, start, p)
    requires j < |PageKeys(keys, skip, limit, start)|
    ensures 0 <= p - skip - j < |keys| && PageKeys(keys, skip, limit, start)[j] == keys[p - skip - j]
  {
    CutAt(UpTo(keys, start), skip, limit, j);
    PageAt(keys, start, p, skip + j);
  }

  ghost predicate RowOf(log: seq<Entry>, k: string, row: Row) {
    row.sequenceKey == Some(k) && Lookup(log, k) == Some(Doc(row.receipt))
  }

  lemma SameRows(log: seq<Entry>, cut: seq<string>, rows: seq<Row>)
    requires |rows| == |cut| && forall j :: 0 <= j < |cut| ==> RowOf(log, cut[j], rows[j])
    ensures rows == Rows(log, cut, true)
  {
    RowsAt(log, cut, true);
    forall j | 0 <= j < |cut| ensures rows[j] == Rows(log, cut, true)[j] { assert RowOf(log, cut[j], rows[j]); }
  }

  lemma WalkRow(log: seq<Entry>, keys: seq<string>, vals: map<string, Value>, start: string, p: int, skip: nat,
                limit: int, results: seq<Row>, j: nat)
    requires Ascending(keys) && Positioned(keys, start, p) && Readable(log, keys, vals)
    requires Walked(keys, vals, p, skip, results) && j < |PageKeys(keys, skip, limit, start)| == |results|
    ensures RowOf(log, PageKeys(keys, skip, limit, start)[j], results[j])
  {
    PageKeyAt(keys, start, p, skip, limit, j);
    assert Collected(keys, vals, p - skip - j, results[j]);
    assert keys[p - skip - j] in keys;
  }

  lemma WalkIsPage(log: seq<Entry>, keys: seq<string>, vals: map<string, Value>, start: string, p: int, skip: nat,
                   limit: int, results: seq<Row>)
    requires Ascending(keys) && Positioned(keys, start, p) && p < |keys| && Readable(log, keys, vals)
    requires Walked(keys, vals, p, skip, results) && Stopped(keys, p, skip, limit, |results|)
    ensures results == Rows(log, PageKeys(keys, skip, limit, start), true)
  {
    var cut := PageKeys(keys, skip, limit, start);
    WalkLength(keys, vals, start, p, skip, limit, results);
    forall j | 0 <= j < |cut| ensures RowOf(log, cut[j], results[j]) {
      WalkRow(log, keys, vals, start, p, skip, limit, results, j);
    }
    SameRows(log, cut, results);
  }

  method GetReceiptsNoFilter(itr: Iterator<Value>, skip: int, limit: int, start: string, ghost log: seq<Entry>)
    returns (results: seq<Row>)
    requires itr.Valid()
    modifies itr
    ensures Readable(log, itr.keys, itr.vals) ==> results == Rows(log, PageKeys(itr.keys, skip, limit, start), true)
  {
    if start != "" {
      var _ := itr.Seek(start);
    } else {
      var _ := itr.Last();
    }
    ghost var p := itr.pos;
    results := WalkBack(itr, skip, limit);
    if Readable(log, itr.keys, itr.vals) {
      if p < |itr.keys| {
        WalkIsPage(log, itr.keys, itr.vals, start, p, NoLess0(skip), limit, results);
      } else {
        CeilingAt(itr.keys, start, p);
      }
    }
  }

  // --- strings.Split(s, ":") ---

  function Split(s: string): (r: seq<string>)
    ensures r != []
  {
    if s == "" then [""]
    else
      var rest := Split(s[1..]);
      if s[0] == ':' then [""] + rest else [[s[0]] + rest[0]] + rest[1..]
  }

  lemma {:induction false} SplitFirst(a: string, rest: string)
    requires ':' !in a
    ensures Split(a + ":" + rest) == [a] + Split(rest)
  {
    if a == "" {
      assert (a + ":" + rest)[1..] == rest;
    } else {
      SplitFirst(a[1..], rest);
      assert (a + ":" + rest)[1..] == a[1..] + ":" + rest;
      assert [a[0]] + a[1..] == a;
    }
  }

  lemma {:induction false} SplitWhole(a: string)
    requires ':' !in a
    ensures Split(a) == [a]
  {
    if a == "" {
    } else {
      SplitWhole(a[1..]);
      assert [a[0]] + a[1..] == a;
    }
  }

  lemma SplitAtKey(e: Entry)
    requires KeyOk(e.key)
    ensures |Split(e.AtKey())| == 3 && Split(e.AtKey())[2] == e.key
  {
    var rest := Decimal(e.receipt.receivedAt) + ":" + e.key;
    assert e.AtKey() == "receivedAt" + ":" + rest;
    SplitFirst("receivedAt", rest);
    SplitFirst(Decimal(e.receipt.receivedAt), e.key);
    SplitWhole(e.key);
  }

  // The first key at or after the search key decides: it is the least index key there is, or there is none.
  lemma SeekIsLeastAt(log: seq<Entry>, keys: seq<string>, vals: map<string, Value>, since: nat, p: nat)
    requires LogOk(log) && Represents(log, keys, vals) && Splits(keys, SinceKey(since), p)
    ensures LeastAt(log, since).Some? <==> p < |keys| && "receivedAt:" <= keys[p]
    ensures LeastAt(log, since).Some? ==> keys[p] == LeastAt(log, since).value.AtKey()
  {
    LeastAtMeans(log, since);
    if LeastAt(log, since).Some? {
      IndexKeyStored(log, keys, vals, LeastAt(log, since).value, since, p);
    }
    if p < |keys| && "receivedAt:" <= keys[p] {
      assert keys[p] in keys;
      AtEntries(log, keys[p]);
      var i :| 0 <= i < |log| && log[i].InAt() && log[i].AtKey() == keys[p];
      assert AtMost(SinceKey(since), log[i].AtKey());
      assert LeastAt(log, since).Some?;
      var e := LeastAt(log, since).value;
      assert AtMost(e.AtKey(), keys[p]);
      IndexKeyStored(log, keys, vals, e, since, p);
      Total(e.AtKey(), keys[p]);
    }
  }

  lemma IndexKeyStored(log: seq<Entry>, keys: seq<string>, vals: map<string, Value>, e: Entry, since: nat, p: nat)
    requires LogOk(log) && Represents(log, keys, vals) && Splits(keys, SinceKey(since), p)
    requires e in log && e.InAt() && AtMost(SinceKey(since), e.AtKey())
    ensures p < |keys| && AtMost(keys[p], e.AtKey()) && "receivedAt:" <= keys[p]
  {
    var a := e.AtKey();
    assert "receivedAt:" <= a;
    AtEntries(log, a);
    assert a in keys;
    var i :| 0 <= i < |keys| && keys[i] == a;
    assert p <= i;
    AscendingMembers(keys, i, p);
    PrefixFirst("receivedAt:", SinceKey(since)) by { assert "receivedAt:" <= SinceKey(since); }
    AtMostTransitive("receivedAt:", SinceKey(since), keys[p]);
    PrefixContiguous("receivedAt:", keys[p], a);
  }
}
