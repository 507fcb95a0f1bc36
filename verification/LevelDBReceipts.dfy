/** internal/rest/receipt/leveldb.go: hand-built index keys over the ordered store, written one by one
    and read back with seeks, prefix scans and binary searches. */
module LevelDBReceiptStore {
  import opened Options
  import opened Lex
  import opened KVStores
  import opened KeySeqs
  import opened ReceiptLog
  import opened ReceiptQuery
  import opened ReceiptScans

  function PutsNeeded(r: Receipt): nat { if HasTo(r) then 5 else 4 }

  // AddReceipt's j-th write.
  function PutKey(e: Entry, j: nat): string
    requires j < PutsNeeded(e.receipt)
  {
    if j == 0 then e.key
    else if j == 1 then e.FromKey()
    else if j == 2 && HasTo(e.receipt) then e.ToKey()
    else if j == PutsNeeded(e.receipt) - 1 then e.requestId
    else e.AtKey()
  }

  // After one more write the log reads as before, except under that write's key.
  lemma NextPut(log: seq<Entry>, e: Entry, j: nat, k: string)
    requires j < PutsNeeded(e.receipt)
    ensures Lookup(log + [e.(puts := j + 1)], k) ==
            if k == PutKey(e, j) then Some(if j == 0 then Doc(e.receipt) else Ref(e.key))
            else Lookup(log + [e.(puts := j)], k)
  {
    assert (log + [e.(puts := j + 1)])[..|log|] == log && (log + [e.(puts := j)])[..|log|] == log;
  }

  lemma PutRepresents(log: seq<Entry>, e: Entry, j: nat, vals: map<string, Value>, keys: seq<string>,
                      keys': seq<string>)
    requires j < PutsNeeded(e.receipt) && Represents(log + [e.(puts := j)], keys, vals)
    requires Ascending(keys')
    requires forall k :: k in keys' <==> k in vals || k == PutKey(e, j)
    ensures Represents(log + [e.(puts := j + 1)], keys',
                       vals[PutKey(e, j) := if j == 0 then Doc(e.receipt) else Ref(e.key)])
  {
    forall k
      ensures Lookup(log + [e.(puts := j + 1)], k) ==
              if k == PutKey(e, j) then Some(if j == 0 then Doc(e.receipt) else Ref(e.key))
              else Lookup(log + [e.(puts := j)], k)
    {
      NextPut(log, e, j, k);
    }
  }

  // The writes of one AddReceipt, in order.
  function Puts(requestID: string, receipt: Receipt, newKey: string): seq<(string, Value)> {
    [(newKey, Doc(receipt)),
     ("from:" + (if receipt.from.Some? then receipt.from.value else "%!s(<nil>)") + ":" + newKey, Ref(newKey))]
    + (if receipt.to.Some? && receipt.to.value != "" then [("to:" + receipt.to.value + ":" + newKey, Ref(newKey))]
       else [])
    + [("receivedAt:" + Decimal(receipt.receivedAt) + ":" + newKey, Ref(newKey)), (requestID, Ref(newKey))]
  }

  function Written(vals: map<string, Value>, puts: seq<(string, Value)>): map<string, Value> {
    if puts == [] then vals else
      var (key, val) := puts[|puts| - 1];
      Written(vals, puts[..|puts| - 1])[key := val]
  }

  lemma PutKeys(e: Entry, j: nat)
    requires j < PutsNeeded(e.receipt)
    ensures |Puts(e.requestId, e.receipt, e.key)| == PutsNeeded(e.receipt)
    ensures Puts(e.requestId, e.receipt, e.key)[j] == (PutKey(e, j), if j == 0 then Doc(e.receipt) else Ref(e.key))
  {
  }

  lemma WrittenNext(vals: map<string, Value>, puts: seq<(string, Value)>, j: nat)
    requires j < |puts|
    ensures Written(vals, puts[..j + 1]) == Written(vals, puts[..j])[puts[j].0 := puts[j].1]
  {
    assert puts[..j + 1][..j] == puts[..j];
  }

  class LevelDBReceipts {
    const store: KVStore<Value>
    const defaultLimit: int
    ghost var log: seq<Entry>

    ghost predicate Valid()
      reads this, store
    {
      store.Valid() && Represents(log, store.keys, store.vals)
    }

    constructor (queryLimit: int)
      ensures Valid() && fresh(store) && log == [] && defaultLimit == queryLimit
    {
      store := new KVStore();
      defaultLimit := queryLimit;
      log := [];
      new;
      assert forall k :: Lookup([], k).None?;
    }

    // An AddReceipt has made j of its writes.
    ghost predicate InProgress(before: seq<Entry>, was: map<string, Value>, e: Entry, j: nat)
      reads this, store
    {
      && log == before + [e.(puts := j)]
      && j <= |Puts(e.requestId, e.receipt, e.key)|
      && store.vals == Written(was, Puts(e.requestId, e.receipt, e.key)[..j])
    }

    // One write of an AddReceipt in progress.
    method PutNext(ghost before: seq<Entry>, ghost was: map<string, Value>, ghost e: Entry, ghost j: nat, key: string,
                   val: Value, ok: bool) returns (err: bool)
      requires Valid() && j < PutsNeeded(e.receipt) && InProgress(before, was, e, j)
      requires key == PutKey(e, j) && val == if j == 0 then Doc(e.receipt) else Ref(e.key)
      modifies this, store
      ensures Valid() && err == !ok && InProgress(before, was, e, if ok then j + 1 else j)
    {
      ghost var keys, vals := store.keys, store.vals;
      PutKeys(e, j);
      WrittenNext(was, Puts(e.requestId, e.receipt, e.key), j);
      err := store.Put(key, val, ok);
      if ok {
        log := before + [e.(puts := j + 1)];
        PutRepresents(before, e, j, vals, keys, store.keys);
      }
    }

    // `newKey` is the generated key; the first `writes` writes succeed and the next one fails.
    method AddReceipt(requestID: string, receipt: Receipt, newKey: string, writes: nat) returns (err: bool)
      requires Valid()
      modifies this, store
      ensures Valid() && err == (writes < |Puts(requestID, receipt, newKey)|)
      ensures var made := if err then writes else |Puts(requestID, receipt, newKey)|;
              && log == old(log) + [Entry(newKey, requestID, receipt, made)]
              && store.vals == Written(old(store.vals), Puts(requestID, receipt, newKey)[..made])
    {
      var e := Entry(newKey, requestID, receipt, 0);
      PutKeys(e, 0);
      ghost var before, was := log, store.vals;
      log := log + [e];
      forall k ensures Lookup(log, k) == Lookup(before, k) {
        assert log[..|before|] == before;
      }
      err := PutNext(before, was, e, 0, newKey, Doc(receipt), 0 < writes);
      if !err {
        err := PutNext(before, was, e, 1, "from:" + FromText(receipt) + ":" + newKey, Ref(newKey), 1 < writes);
      }
      if !err && HasTo(receipt) {
        err := PutNext(before, was, e, 2, "to:" + receipt.to.value + ":" + newKey, Ref(newKey), 2 < writes);
      }
      if !err {
        err := PutTimeAndId(before, was, e, writes);
      }
    }

    // The last two writes of an AddReceipt in progress.
    method PutTimeAndId(ghost before: seq<Entry>, ghost was: map<string, Value>, e: Entry, writes: nat)
      returns (err: bool)
      requires Valid() && InProgress(before, was, e, PutsNeeded(e.receipt) - 2) && writes >= PutsNeeded(e.receipt) - 2
      modifies this, store
      ensures Valid() && err == (writes < PutsNeeded(e.receipt))
      ensures InProgress(before, was, e, if err then writes else PutsNeeded(e.receipt))
    {
      var n := PutsNeeded(e.receipt);
      err := PutNext(before, was, e, n - 2, "receivedAt:" + Decimal(e.receipt.receivedAt) + ":" + e.key, Ref(e.key),
          n - 2 < writes);
      if !err {
        err := PutNext(before, was, e, n - 1, e.requestId, Ref(e.key), n - 1 < writes);
      }
    }

    method FindEndPoint(since: nat) returns (endKey: string)
      requires Valid()
      ensures LogOk(log) ==> endKey == if LeastAt(log, since).Some? then LeastAt(log, since).value.key else ""
    {
      endKey := "";
      var itr := store.NewIterator("");
      var found := itr.Seek("receivedAt:" + Decimal(since) + ":");
      if LogOk(log) { SeekIsLeastAt(log, store.keys, store.vals, since, itr.pos); }
      if found {
        var foundKey := itr.keys[itr.pos];
        if "receivedAt:" <= foundKey {
          var segments := Split(foundKey);
          if LogOk(log) {
            LeastAtMeans(log, since);
            SplitAtKey(LeastAt(log, since).value);
          }
          // Go would panic on a third segment that is not there
          endKey := if |segments| > 2 then segments[2] else "";
        }
      }
    }

    method GetLookupKeysByIDs(ids: seq<string>, start: string, end: string) returns (result: seq<string>)
      requires Valid()
      ensures result == Keep(SortStrings(IdKeys(log, ids)), InBounds(end, start))
    {
      result := [];
      for i := 0 to |ids|
        invariant result == IdKeys(log, ids[..i])
      {
        assert ids[..i + 1][..i] == ids[..i];
        var val := store.Get(ids[i]);
        if val.Some? {
          result := result + [Bytes(val.value)];
        }
      }
      assert ids[..|ids|] == ids;
      result := SortStrings(result);
      result := ApplyBound(result, end, start);
    }

    // The two index scans of getLookupKeysByFromAndTo, on one iterator.
    method ScanAddresses(from: string, to: string, limit: int) returns (fromKeys: seq<string>, toKeys: seq<string>)
      requires Valid()
      ensures LogOk(log) && FromApart(log, from) && from != "" ==>
                fromKeys == Take(KeysOf(log, SentFrom(from)), ScanLimit(limit))
      ensures LogOk(log) && ToApart(log, to) && to != "" ==> toKeys == Take(KeysOf(log, SentTo(to)), ScanLimit(limit))
    {
      var itr := store.NewIterator("");
      fromKeys, toKeys := [], [];
      if from != "" {
        fromKeys := GetLookupKeysByPrefix(itr, "from:" + from + ":", limit);
        if LogOk(log) && FromApart(log, from) { FromScan(log, store.keys, store.vals, from, ScanLimit(limit)); }
      }
      if to != "" {
        toKeys := GetLookupKeysByPrefix(itr, "to:" + to + ":", limit);
        if LogOk(log) && ToApart(log, to) { ToScan(log, store.keys, store.vals, to, ScanLimit(limit)); }
      }
    }

    method GetLookupKeysByFromAndTo(q: Query, end: string, limit: int) returns (result: seq<string>)
      requires Valid() && (q.from != "" || q.to != "")
      ensures LogOk(log) && Apart(log, q) ==> result == ByFromAndTo(log, q, end, limit)
    {
      var fromKeys, toKeys := ScanAddresses(q.from, q.to, limit);
      if LogOk(log) { ScansSorted(log, q.from, q.to, ScanLimit(limit)); }
      if q.to == "" {
        result := fromKeys;
      } else if q.from == "" {
        result := toKeys;
      } else {
        result := Intersect(fromKeys, toKeys);
      }
      result := ApplyBound(result, end, q.start);
    }

    method GetReceiptsByLookupKey(lookupKeys: seq<string>, limit: int) returns (results: seq<Row>)
      requires Valid()
      ensures results == Rows(log, Limit(lookupKeys, limit), false)
    {
      var length := |lookupKeys|;
      if limit > 0 && limit < length {
        length := limit;
      }
      results := [];
      for i := 0 to length
        invariant results == Rows(log, lookupKeys[..i], false)
      {
        assert lookupKeys[..i + 1][..i] == lookupKeys[..i];
        var val := store.Get(lookupKeys[i]);
        if val.Some? && val.value.Doc? {
          results := results + [Row(None, val.value.receipt)];
        }
      }
      assert lookupKeys[..length] == Limit(lookupKeys, limit);
    }

    method GetReceipts(q: Query) returns (results: seq<Row>)
      requires Valid()
      ensures LogOk(log) && Apart(log, q) ==> results == Answer(log, store.keys, defaultLimit, q)
    {
      var endKey := "";
      if q.since > 0 {
        endKey := FindEndPoint(q.since);
        if LogOk(log) && LeastAt(log, q.since).Some? { EndIsKey(log, q.since); }
        if endKey == "" {
          return [];
        }
      }
      var limit := if q.limit == 0 then defaultLimit else q.limit;
      var chosen := ChooseKeys(q, endKey, limit);
      if chosen.Some? {
        results := GetReceiptsByLookupKey(Reverse(SortStrings(chosen.value)), limit);
      } else {
        var itr := store.NewIterator(endKey);
        if LogOk(log) { RangeReadable(log, store.keys, store.vals, endKey, itr.keys); }
        results := GetReceiptsNoFilter(itr, q.skip, limit, q.start, log);
      }
    }

    // The filters of GetReceipts; None is Go's nil slice.
    method ChooseKeys(q: Query, endKey: string, limit: int) returns (lookupKeys: Option<seq<string>>)
      requires Valid()
      ensures lookupKeys.None? <==> q.ids == [] && q.from == "" && q.to == ""
      ensures LogOk(log) && Apart(log, q) ==> lookupKeys == Chosen(log, q, endKey, limit)
    {
      var byIDs, byFromAndTo := [], [];
      if |q.ids| > 0 {
        byIDs := GetLookupKeysByIDs(q.ids, q.start, endKey);
      }
      if q.from != "" || q.to != "" {
        byFromAndTo := GetLookupKeysByFromAndTo(q, endKey, limit);
      }
      if |q.ids| > 0 && q.from == "" && q.to == "" {
        lookupKeys := Some(byIDs);
      } else if |q.ids| == 0 && (q.from != "" || q.to != "") {
        lookupKeys := Some(byFromAndTo);
      } else if |q.ids| > 0 {
        var both := Intersect(byIDs, byFromAndTo);
        if LogOk(log) && Apart(log, q) {
          ByAddressSorted(log, q, endKey, limit);
        }
        lookupKeys := Some(both);
      } else {
        lookupKeys := None;
      }
    }

    method GetReceipt(requestID: string) returns (result: Option<Receipt>, failed: bool)
      requires Valid()
      ensures LogOk(log) && RequestIdOk(requestID) ==>
                && !failed
                && (result.None? <==> forall i :: 0 <= i < |log| && log[i].InId() ==> log[i].requestId != requestID)
                && (result.Some? ==>
                      exists i ::
                          0 <= i < |log| && log[i].InId() && log[i].requestId == requestID
                              && result == Some(log[i].receipt)
                                  && forall j :: i < j < |log| ==> !(log[j].InId() && log[j].requestId == requestID))
    {
      if LogOk(log) && RequestIdOk(requestID) { RequestIds(log, requestID); }
      var val := store.Get(requestID);
      if val.None? {
        return None, false;
      }
      var content := store.Get(Bytes(val.value));
      if LogOk(log) && RequestIdOk(requestID) {
        ghost var i :| 0 <= i < |log| && log[i].InId() && log[i].requestId == requestID
            && Lookup(log, requestID) == Some(Ref(log[i].key))
                       && forall j :: i < j < |log| ==> !(log[j].InId() && log[j].requestId == requestID);
        Records(log, log[i].key);
      }
      if content.None? || !content.value.Doc? {
        return None, true;
      }
      return Some(content.value.receipt), false;
    }
  }

  lemma RangeReadable(log: seq<Entry>, keys: seq<string>, vals: map<string, Value>, end: string, range: seq<string>)
    requires LogOk(log) && Represents(log, keys, vals) && Ascending(range)
    requires forall k :: k in range <==> k in keys && AtMost(end, k)
    ensures range == Keep(keys, NotBefore(end)) && Readable(log, range, vals)
  {
    KeepMembers(keys, NotBefore(end));
    KeepAscending(keys, NotBefore(end));
    AscendingUnique(range, Keep(keys, NotBefore(end)));
    RecordsComeLast(log, keys, vals);
    forall i, j | 0 <= i < j < |range| && IsRecordKey(range[i]) ensures IsRecordKey(range[j]) {
      assert range[i] in keys && range[j] in keys;
      var a :| 0 <= a < |keys| && keys[a] == range[i];
      var b :| 0 <= b < |keys| && keys[b] == range[j];
      AscendingMembers(keys, a, b);
    }
  }

  lemma ScansSorted(log: seq<Entry>, from: string, to: string, n: nat)
    requires LogOk(log)
    ensures var fromKeys, toKeys := Take(KeysOf(log, SentFrom(from)), n), Take(KeysOf(log, SentTo(to)), n);
            Sorted(fromKeys) && Sorted(toKeys) && Sorted(Keep(fromKeys, Among(toKeys)))
  {
    var fromKeys, toKeys := Take(KeysOf(log, SentFrom(from)), n), Take(KeysOf(log, SentTo(to)), n);
    KeysOfAscending(log, SentFrom(from));
    KeysOfAscending(log, SentTo(to));
    KeepAscending(fromKeys, Among(toKeys));
    AscendingIsSorted(fromKeys);
    AscendingIsSorted(toKeys);
    AscendingIsSorted(Keep(fromKeys, Among(toKeys)));
  }

  lemma ByAddressSorted(log: seq<Entry>, q: Query, end: string, limit: int)
    requires LogOk(log)
    ensures Sorted(ByFromAndTo(log, q, end, limit))
  {
    var from, to :=
        Take(KeysOf(log, SentFrom(q.from)), ScanLimit(limit)), Take(KeysOf(log, SentTo(q.to)), ScanLimit(limit));
    KeysOfAscending(log, SentFrom(q.from));
    KeysOfAscending(log, SentTo(q.to));
    KeepAscending(from, Among(to));
    var base := if q.to == "" then from else if q.from == "" then to else Keep(from, Among(to));
    KeepAscending(base, InBounds(end, q.start));
    AscendingIsSorted(Keep(base, InBounds(end, q.start)));
  }
}
