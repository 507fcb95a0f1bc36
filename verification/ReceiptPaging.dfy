/** Listing receipts without a filter, and paging through them while more arrive. */
module ReceiptPaging {
  import opened Options
  import opened Lex
  import opened KVStores
  import opened KeySeqs
  import opened ReceiptLog
  import opened ReceiptQuery
  import opened ReceiptScans

  // --- cursor paging over a growing store ---

  // The page asked for after `page`: it starts at the last key of that one, and skips it.
  function PageAfter(keys: seq<string>, n: nat, page: seq<string>): seq<string> {
    if page == [] then [] else PageKeys(keys, 1, n, page[|page| - 1])
  }

  // `stores[i]` are the keys when `pages[i]` is asked for.
  ghost predicate Paged(stores: seq<seq<string>>, n: nat, pages: seq<seq<string>>) {
    && |pages| == |stores| > 0
    && pages[0] == PageKeys(stores[0], 0, n, "")
    && forall i :: 0 < i < |pages| ==> pages[i] == PageAfter(stores[i], n, pages[i - 1])
  }

  function Join(pages: seq<seq<string>>): seq<string> {
    if pages == [] then [] else Join(pages[..|pages| - 1]) + pages[|pages| - 1]
  }

  function RecordKeys(keys: seq<string>): seq<string> { Keep(keys, IsRecord()) }

  lemma UpToRecord(keys: seq<string>, i: nat)
    requires Ascending(keys) && i < |RecordKeys(keys)|
    ensures UpTo(keys, RecordKeys(keys)[i]) == RecordKeys(keys)[..i + 1] && RecordKeys(keys)[i] != ""
  {
    var records := RecordKeys(keys);
    var c := records[i];
    assert c in keys && IsRecordKey(c) by {
      KeepMembers(keys, IsRecord());
      assert c in records;
    }
    UpToStored(keys, c);
    KeepAscending(keys, IsRecord());
    forall j | 0 <= j < |records| ensures NotAfter(c)(records[j]) <==> j < i + 1 {
      AscendingMembers(records, i, j);
    }
    KeepFirst(records, i + 1, NotAfter(c));
  }

  lemma SkipNewest(s: seq<string>, i: nat, n: nat)
    requires i < |s| && n > 0
    ensures Limit(Drop(Reverse(s[..i + 1]), 1), n) == Take(Reverse(s[..i]), n)
  {
    assert Drop(Reverse(s[..i + 1]), 1) == Reverse(s[..i]);
  }

  // The page after record number `i`, counted from the oldest, is what lies below it.
  lemma PageBelow(keys: seq<string>, i: nat, n: nat)
    requires Ascending(keys) && n > 0 && i < |RecordKeys(keys)|
    ensures PageKeys(keys, 1, n, RecordKeys(keys)[i]) == Take(Reverse(RecordKeys(keys)[..i]), n)
  {
    UpToRecord(keys, i);
    SkipNewest(RecordKeys(keys), i, n);
  }

  lemma BelowSeen(first: seq<string>, all: seq<string>, seen: nat)
    requires first <= all && 0 < seen <= |first|
    ensures Reverse(first)[seen - 1] == all[|first| - seen]
    ensures Reverse(first)[seen..] == Reverse(all[..|first| - seen])
  {
    var below := all[..|first| - seen];
    ReverseAt(first, seen - 1);
    forall j | 0 <= j < |below| ensures Reverse(first)[seen + j] == Reverse(below)[j] {
      ReverseAt(first, seen + j);
      ReverseAt(below, j);
    }
  }

  // One step: the next page continues the descending enumeration where the last one ended.
  lemma NextPage(first: seq<string>, keys: seq<string>, seen: nat, n: nat)
    requires Ascending(keys) && n > 0 && first <= RecordKeys(keys) && 0 < seen <= |first|
    ensures PageKeys(keys, 1, n, Reverse(first)[seen - 1]) == Take(Reverse(first)[seen..], n)
  {
    BelowSeen(first, RecordKeys(keys), seen);
    PageBelow(keys, |first| - seen, n);
  }

  // `keys` are in order, and their oldest records are `first`.
  ghost predicate Extends(first: seq<string>, keys: seq<string>) {
    Ascending(keys) && first <= RecordKeys(keys)
  }

  // How many receipts m pages ask for.
  function Asked(m: nat, n: nat): nat {
    if m == 0 then 0 else Asked(m - 1, n) + n
  }

  lemma AfterPage<T>(all: seq<T>, k: nat, n: nat)
    requires n > 0
    ensures var page := Take(Drop(all, k), n);
            if page == [] then Take(Drop(all, k + n), n) == []
            else
              && k + |page| <= |all| && page[|page| - 1] == all[k + |page| - 1]
              && Take(all[k + |page|..], n) == Take(Drop(all, k + n), n)
  {
  }

  // `page`, the n that follow the first k, is continued by what the next request returns.
  lemma OneMorePage(first: seq<string>, keys: seq<string>, page: seq<string>, k: nat, n: nat)
    requires Ascending(keys) && first <= RecordKeys(keys) && n > 0 && page == Take(Drop(Reverse(first), k), n)
    ensures PageAfter(keys, n, page) == Take(Drop(Reverse(first), k + n), n)
  {
    AfterPage(Reverse(first), k, n);
    if page != [] {
      NextPage(first, keys, k + |page|, n);
    }
  }

  // The n records that follow the first k, counted from the newest.
  function Segment(first: seq<string>, n: nat): nat -> seq<string> { (k: nat) => Take(Drop(Reverse(first), k), n) }

  function Opening(first: seq<string>): nat -> seq<string> { (k: nat) => Take(Reverse(first), k) }

  // If the page before is its segment, so is page j.
  ghost predicate Follows(pages: seq<seq<string>>, n: nat, segment: nat -> seq<string>, j: nat)
    requires 0 < j < |pages|
  {
    pages[j - 1] == segment(Asked(j - 1, n)) ==> pages[j] == segment(Asked(j, n))
  }

  lemma {:induction false} PagesFollow(pages: seq<seq<string>>, n: nat, segment: nat -> seq<string>, i: nat)
    requires i < |pages| && pages[0] == segment(0)
    requires forall j :: 0 < j < |pages| ==> Follows(pages, n, segment, j)
    ensures pages[i] == segment(Asked(i, n))
  {
    if i == 0 {
    } else {
      PagesFollow(pages, n, segment, i - 1);
      assert Follows(pages, n, segment, i);
    }
  }

  ghost predicate Continues(page: seq<string>, n: nat, opening: nat -> seq<string>, j: nat) {
    opening(Asked(j, n)) + page == opening(Asked(j + 1, n))
  }

  lemma {:induction false} PagesJoin(pages: seq<seq<string>>, n: nat, opening: nat -> seq<string>, i: nat)
    requires i <= |pages| && opening(0) == []
    requires forall j :: 0 <= j < |pages| ==> Continues(pages[j], n, opening, j)
    ensures Join(pages[..i]) == opening(Asked(i, n))
  {
    if i == 0 {
    } else {
      PagesJoin(pages, n, opening, i - 1);
      assert pages[..i][..i - 1] == pages[..i - 1];
      assert Continues(pages[i - 1], n, opening, i - 1);
    }
  }

  lemma FirstPage(keys: seq<string>, n: nat)
    requires n > 0
    ensures PageKeys(keys, 0, n, "") == Segment(RecordKeys(keys), n)(0)
  {
    assert Drop(Reverse(RecordKeys(keys)), 0) == Reverse(RecordKeys(keys));
  }

  lemma NextSegment(first: seq<string>, keys: seq<string>, page: seq<string>, j: nat, n: nat)
    requires Extends(first, keys) && n > 0 && page == Segment(first, n)(Asked(j, n))
    ensures PageAfter(keys, n, page) == Segment(first, n)(Asked(j + 1, n))
  {
    OneMorePage(first, keys, page, Asked(j, n), n);
  }

  lemma FollowsAt(first: seq<string>, stores: seq<seq<string>>, n: nat, pages: seq<seq<string>>, j: nat)
    requires Paged(stores, n, pages) && n > 0 && 0 < j < |pages| && Extends(first, stores[j])
    ensures Follows(pages, n, Segment(first, n), j)
  {
    if pages[j - 1] == Segment(first, n)(Asked(j - 1, n)) {
      NextSegment(first, stores[j], pages[j - 1], j - 1, n);
    }
  }

  lemma MoreOpened(first: seq<string>, page: seq<string>, j: nat, n: nat)
    requires page == Segment(first, n)(Asked(j, n))
    ensures Continues(page, n, Opening(first), j)
  {
    Extend(Reverse(first), Asked(j, n), n);
  }

  lemma Extend<T>(s: seq<T>, k: nat, n: nat)
    ensures Take(s, k) + Take(Drop(s, k), n) == Take(s, k + n)
  {
  }

  // However many receipts arrive in between, the pages list the records of the first moment, newest
  // first, without a gap or a repeat.
  lemma PagingIsStable(first: seq<string>, stores: seq<seq<string>>, n: nat, pages: seq<seq<string>>)
    requires Paged(stores, n, pages) && n > 0 && first == RecordKeys(stores[0])
    requires forall i :: 0 <= i < |stores| ==> Extends(first, stores[i])
    ensures Join(pages) == Opening(first)(Asked(|pages|, n))
  {
    FirstPage(stores[0], n);
    forall j | 0 < j < |pages| ensures Follows(pages, n, Segment(first, n), j) {
      FollowsAt(first, stores, n, pages, j);
    }
    forall j | 0 <= j < |pages| ensures Continues(pages[j], n, Opening(first), j) {
      PagesFollow(pages, n, Segment(first, n), j);
      MoreOpened(first, pages[j], j, n);
    }
    PagesJoin(pages, n, Opening(first), |pages|);
    assert pages[..|pages|] == pages;
  }

  // --- pages of a store ---

  lemma {:induction false} KeysOfPrefix(log: seq<Entry>, longer: seq<Entry>, f: Entry -> bool)
    requires log <= longer
    ensures KeysOf(log, f) <= KeysOf(longer, f)
  {
    if |log| < |longer| {
      KeysOfPrefix(log, longer[..|longer| - 1], f);
    } else {
      assert log == longer;
    }
  }

  // Page i is answered by a store holding `logs[i]`, which extends the first log.
  ghost predicate Answering(logs: seq<seq<Entry>>, stores: seq<seq<string>>, vals: seq<map<string, Value>>) {
    && |logs| == |stores| == |vals| > 0
    && forall i :: 0 <= i < |logs| ==> LogOk(logs[i]) && logs[0] <= logs[i] && Represents(logs[i], stores[i], vals[i])
  }

  lemma StoreExtends(logs: seq<seq<Entry>>, stores: seq<seq<string>>, vals: seq<map<string, Value>>, i: nat)
    requires Answering(logs, stores, vals) && i < |logs|
    ensures RecordKeys(stores[i]) == KeysOf(logs[i], Recorded()) && Extends(KeysOf(logs[0], Recorded()), stores[i])
  {
    RecordsComeLast(logs[i], stores[i], vals[i]);
    KeysOfPrefix(logs[0], logs[i], Recorded());
  }

  lemma PagesOfLogs(logs: seq<seq<Entry>>, stores: seq<seq<string>>, vals: seq<map<string, Value>>, n: nat,
                    pages: seq<seq<string>>)
    requires Answering(logs, stores, vals) && n > 0 && Paged(stores, n, pages)
    ensures Join(pages) == Take(Reverse(KeysOf(logs[0], Recorded())), Asked(|pages|, n))
  {
    var first := KeysOf(logs[0], Recorded());
    forall i | 0 <= i < |stores| ensures Extends(first, stores[i]) { StoreExtends(logs, stores, vals, i); }
    StoreExtends(logs, stores, vals, 0);
    PagingIsStable(first, stores, n, pages);
  }

  // --- one unfiltered query ---

  predicate Unfiltered(q: Query) { q.ids == [] && q.from == "" && q.to == "" }

  predicate IsListed(q: Query, e: Entry) {
    && e.InRecord()
    && (q.since > 0 ==> q.since <= e.receipt.receivedAt)
    && (q.start != "" ==> AtMost(e.key, q.start))
  }

  function Listed(q: Query): Entry -> bool { (e: Entry) => IsListed(q, e) }

  // The page starts at a receipt that is stored and recent enough.
  predicate StartsInside(log: seq<Entry>, q: Query) {
    q.start != "" ==> exists i :: 0 <= i < |log| && log[i].key == q.start && IsListed(q, log[i])
  }

  lemma RecordStored(log: seq<Entry>, keys: seq<string>, vals: map<string, Value>, k: string)
    requires LogOk(log) && Represents(log, keys, vals)
    ensures k in keys && IsRecordKey(k) <==> exists i :: 0 <= i < |log| && log[i].InRecord() && log[i].key == k
  {
    if IsRecordKey(k) { Records(log, k); }
    forall i | 0 <= i < |log| && log[i].key == k ensures IsRecordKey(k) { assert KeyOk(log[i].key); }
  }

  lemma RangeRecent(log: seq<Entry>, q: Query, i: nat)
    requires LogOk(log) && SinceReady(log, q) && i < |log|
    requires q.since > 0 ==> LeastAt(log, q.since).Some?
    ensures AtMost(EndOf(log, q), log[i].key) <==> q.since <= 0 || q.since <= log[i].receipt.receivedAt
  {
    if q.since > 0 {
      SinceCutAll(log, q.since);
      assert RightSide(log, q.since, i);
    }
  }

  lemma ListedMember(log: seq<Entry>, keys: seq<string>, vals: map<string, Value>, q: Query, k: string)
    requires LogOk(log) && Represents(log, keys, vals) && SinceReady(log, q)
    requires q.since > 0 ==> LeastAt(log, q.since).Some?
    ensures k in KeysOf(log, Listed(q)) <==>
            k in keys && IsRecordKey(k) && AtMost(EndOf(log, q), k) && (q.start != "" ==> AtMost(k, q.start))
  {
    RecordStored(log, keys, vals, k);
    KeysOfMembers(log, Listed(q));
    forall i | 0 <= i < |log|
      ensures AtMost(EndOf(log, q), log[i].key) <==> q.since <= 0 || q.since <= log[i].receipt.receivedAt
    {
      RangeRecent(log, q, i);
    }
  }

  lemma UpToMembers(range: seq<string>, start: string)
    requires Ascending(range) && (start != "" ==> start in range)
    ensures Ascending(UpTo(range, start))
    ensures forall k :: k in UpTo(range, start) <==> k in range && IsRecordKey(k) && (start != "" ==> AtMost(k, start))
  {
    KeepMembers(range, IsRecord());
    KeepAscending(range, IsRecord());
    if start != "" {
      UpToStored(range, start);
      KeepMembers(RecordKeys(range), NotAfter(start));
      KeepAscending(RecordKeys(range), NotAfter(start));
    }
  }

  lemma UpToIsListed(log: seq<Entry>, keys: seq<string>, vals: map<string, Value>, q: Query)
    requires LogOk(log) && Represents(log, keys, vals) && SinceReady(log, q) && StartsInside(log, q)
    requires q.since > 0 ==> LeastAt(log, q.since).Some?
    ensures UpTo(Keep(keys, NotBefore(EndOf(log, q))), q.start) == KeysOf(log, Listed(q))
  {
    var range := Keep(keys, NotBefore(EndOf(log, q)));
    KeepMembers(keys, NotBefore(EndOf(log, q)));
    KeepAscending(keys, NotBefore(EndOf(log, q)));
    forall k
      ensures k in KeysOf(log, Listed(q)) <==> k in range && IsRecordKey(k) && (q.start != "" ==> AtMost(k, q.start))
    {
      ListedMember(log, keys, vals, q, k);
    }
    if q.start != "" { KeysOfMembers(log, Listed(q)); }
    UpToMembers(range, q.start);
    KeysOfAscending(log, Listed(q));
    AscendingUnique(UpTo(range, q.start), KeysOf(log, Listed(q)));
  }

  // A query without a filter lists what testing every entry would, newest first.
  lemma UnfilteredQueryIsExact(log: seq<Entry>, keys: seq<string>, vals: map<string, Value>, defaultLimit: int,
                               q: Query)
    requires LogOk(log) && Represents(log, keys, vals) && Unfiltered(q)
    requires SinceReady(log, q) && StartsInside(log, q)
    ensures Lists(Answer(log, keys, defaultLimit, q), Matching(log, Listed(q)), if q.skip < 0 then 0 else q.skip,
                  if q.limit == 0 then defaultLimit else q.limit, true)
  {
    UnfilteredRows(log, keys, vals, defaultLimit, q);
    RowsList(log, Listed(q), NoLess0(q.skip), LimitOf(q, defaultLimit), true);
  }

  lemma UnfilteredRows(log: seq<Entry>, keys: seq<string>, vals: map<string, Value>, defaultLimit: int, q: Query)
    requires LogOk(log) && Represents(log, keys, vals) && Unfiltered(q)
    requires SinceReady(log, q) && StartsInside(log, q)
    ensures Answer(log, keys, defaultLimit, q) ==
            Rows(log, Limit(Drop(Reverse(KeysOf(log, Listed(q))), NoLess0(q.skip)), LimitOf(q, defaultLimit)), true)
  {
    if q.since > 0 && LeastAt(log, q.since).None? {
      SinceCutAll(log, q.since);
      forall i | 0 <= i < |log| ensures !Listed(q)(log[i]) { assert RightSide(log, q.since, i); }
      KeysOfNone(log, Listed(q));
    } else {
      UpToIsListed(log, keys, vals, q);
    }
  }

  // Every row of the answer names the key it came from, so its last one is the next page's start.
  lemma RowsNameKeys(log: seq<Entry>, keys: seq<string>, vals: map<string, Value>, defaultLimit: int, q: Query)
    requires LogOk(log) && Represents(log, keys, vals) && Unfiltered(q) && q.since <= 0
    ensures var rows, page :=
              Answer(log, keys, defaultLimit, q), PageKeys(keys, q.skip, LimitOf(q, defaultLimit), q.start);
            |rows| == |page| && forall j :: 0 <= j < |page| ==> rows[j].sequenceKey == Some(page[j])
  {
    var page := PageKeys(keys, q.skip, LimitOf(q, defaultLimit), q.start);
    KeepAll(keys, NotBefore(""));
    forall j | 0 <= j < |page| ensures Lookup(log, page[j]).Some? && Lookup(log, page[j]).value.Doc? {
      PageIsRecords(keys, q.skip, LimitOf(q, defaultLimit), q.start, j);
      Records(log, page[j]);
    }
    RowsAt(log, page, true);
  }

  lemma PageIsRecords(keys: seq<string>, skip: int, limit: int, start: string, j: nat)
    requires j < |PageKeys(keys, skip, limit, start)|
    ensures var k := PageKeys(keys, skip, limit, start)[j]; k in keys && IsRecordKey(k)
  {
    KeepMembers(keys, IsRecord());
    if start != "" && Ceiling(keys, start).Some? {
      KeepMembers(RecordKeys(keys), NotAfter(Ceiling(keys, start).value));
    }
    var all := UpTo(keys, start);
    CutAt(all, NoLess0(skip), limit, j);
    assert all[|all| - 1 - (NoLess0(skip) + j)] in all;
  }

  // A page that starts at a key the store does not hold begins at the next greater key instead. That
  // goes unnoticed only if there are no records, or the next greater key is no record.
  lemma StartExactly(keys: seq<string>, start: string, limit: nat)
    requires Ascending(keys) && RecordsLast(keys) && start != "" && limit > 0
    ensures PageKeys(keys, 0, limit, start) == Limit(Reverse(Keep(RecordKeys(keys), NotAfter(start))), limit)
            <==> start in keys || RecordKeys(keys) == []
                 || (Ceiling(keys, start).Some? && !IsRecordKey(Ceiling(keys, start).value))
  {
    var c := Ceiling(keys, start);
    if start in keys {
      StartHeld(keys, start, limit);
    } else if c.Some? && IsRecordKey(c.value) {
      StartBetween(keys, start, limit);
    } else {
      StartOutside(keys, start, limit);
    }
    if RecordKeys(keys) == [] && c.Some? {
      KeepMembers(keys, IsRecord());
      CeilingMeans(keys, start);
    }
  }

  // What a page from `start` on should be: the records up to it, newest first.
  ghost predicate StartsRight(keys: seq<string>, start: string, limit: nat) {
    PageKeys(keys, 0, limit, start) == Limit(Reverse(Keep(RecordKeys(keys), NotAfter(start))), limit)
  }

  lemma PageIsCut(keys: seq<string>, start: string, limit: nat)
    ensures PageKeys(keys, 0, limit, start) == Limit(Reverse(UpTo(keys, start)), limit)
  {
    assert Drop(Reverse(UpTo(keys, start)), 0) == Reverse(UpTo(keys, start));
  }

  lemma StartHeld(keys: seq<string>, start: string, limit: nat)
    requires Ascending(keys) && start != "" && start in keys
    ensures StartsRight(keys, start, limit)
  {
    PageIsCut(keys, start, limit);
    UpToStored(keys, start);
  }

  lemma StartOutside(keys: seq<string>, start: string, limit: nat)
    requires Ascending(keys) && RecordsLast(keys) && start != "" && start !in keys && limit > 0
    requires Ceiling(keys, start).Some? ==> !IsRecordKey(Ceiling(keys, start).value)
    ensures StartsRight(keys, start, limit) <==> RecordKeys(keys) == [] || Ceiling(keys, start).Some?
  {
    PageIsCut(keys, start, limit);
    StartMissing(keys, start);
    if Ceiling(keys, start).None? && RecordKeys(keys) != [] { ReverseCutFirst(RecordKeys(keys), limit); }
  }

  lemma StartBetween(keys: seq<string>, start: string, limit: nat)
    requires Ascending(keys) && start != "" && start !in keys && limit > 0
    requires Ceiling(keys, start).Some? && IsRecordKey(Ceiling(keys, start).value)
    ensures !StartsRight(keys, start, limit) && RecordKeys(keys) != []
  {
    CeilingLast(keys, start);
    BeginsElsewhere(keys, start, limit);
  }

  lemma BeginsElsewhere(keys: seq<string>, start: string, limit: nat)
    requires LastIsMissing(Keep(RecordKeys(keys), NotAfter(start)), UpTo(keys, start))
    ensures !StartsRight(keys, start, limit)
  {
    PageIsCut(keys, start, limit);
    LastMissing(Keep(RecordKeys(keys), NotAfter(start)), UpTo(keys, start), limit);
  }

  lemma StartMissing(keys: seq<string>, start: string)
    requires Ascending(keys) && RecordsLast(keys) && start != "" && start !in keys
    ensures Ceiling(keys, start).None? ==>
              UpTo(keys, start) == [] && Keep(RecordKeys(keys), NotAfter(start)) == RecordKeys(keys)
    ensures Ceiling(keys, start).Some? && !IsRecordKey(Ceiling(keys, start).value) ==>
              UpTo(keys, start) == [] && Keep(RecordKeys(keys), NotAfter(start)) == []
  {
    CeilingMeans(keys, start);
    KeepMembers(keys, IsRecord());
    if Ceiling(keys, start).None? {
      forall k | k in RecordKeys(keys) ensures NotAfter(start)(k) { Asymmetric(k, start); }
      KeepAll(RecordKeys(keys), NotAfter(start));
    } else if !IsRecordKey(Ceiling(keys, start).value) {
      var c := Ceiling(keys, start).value;
      forall k | k in RecordKeys(keys) ensures Less(c, k) && Less(start, k) {
        var a :| 0 <= a < |keys| && keys[a] == c;
        var b :| 0 <= b < |keys| && keys[b] == k;
        AscendingMembers(keys, a, b);
        AtMostLess(start, c, k);
      }
      KeepNone(RecordKeys(keys), NotAfter(c));
      KeepNone(RecordKeys(keys), NotAfter(start));
    }
  }

  // The page then opens with a record beyond `start`.
  lemma CeilingLast(keys: seq<string>, start: string)
    requires Ascending(keys) && start != "" && start !in keys
    requires Ceiling(keys, start).Some? && IsRecordKey(Ceiling(keys, start).value)
    ensures UpTo(keys, start) != [] && UpTo(keys, start)[|UpTo(keys, start)| - 1] == Ceiling(keys, start).value
    ensures Ceiling(keys, start).value in RecordKeys(keys)
    ensures Ceiling(keys, start).value !in Keep(RecordKeys(keys), NotAfter(start))
  {
    var c := Ceiling(keys, start).value;
    CeilingMeans(keys, start);
    RecordMember(keys, c);
    AfterNotKept(RecordKeys(keys), start, c);
    KeepAscending(keys, IsRecord());
    CutIsLast(RecordKeys(keys), c);
  }

  lemma RecordMember(keys: seq<string>, c: string)
    requires c in keys && IsRecordKey(c)
    ensures c in RecordKeys(keys)
  {
    KeepMembers(keys, IsRecord());
  }

  lemma AfterNotKept(s: seq<string>, start: string, c: string)
    requires AtMost(start, c) && c != start
    ensures c !in Keep(s, NotAfter(start))
  {
    KeepMembers(s, NotAfter(start));
    Total(start, c);
  }

  lemma CutIsLast(s: seq<string>, c: string)
    requires Ascending(s) && c in s
    ensures var t := Keep(s, NotAfter(c)); t != [] && t[|t| - 1] == c
  {
    KeepMembers(s, NotAfter(c));
    KeepAscending(s, NotAfter(c));
    Irreflexive(c);
    LastOfAscending(Keep(s, NotAfter(c)), c);
  }

  lemma LastOfAscending(s: seq<string>, c: string)
    requires Ascending(s) && c in s && forall k :: k in s ==> AtMost(k, c)
    ensures s[|s| - 1] == c
  {
    var i :| 0 <= i < |s| && s[i] == c;
    AscendingMembers(s, i, |s| - 1);
    assert s[|s| - 1] in s;
  }

  // --- paging as a client does it: the start of the next page is read off the last row ---

  function Ask(skip: nat, n: nat, start: string): Query { Query(skip, n, [], 0, "", "", start) }

  function KeyOfRow(r: Row): string { if r.sequenceKey.Some? then r.sequenceKey.value else "" }

  function RowKeys(rows: seq<Row>): (keys: seq<string>)
    ensures |keys| == |rows| && forall i :: 0 <= i < |rows| ==> keys[i] == KeyOfRow(rows[i])
  {
    if rows == [] then [] else RowKeys(rows[..|rows| - 1]) + [KeyOfRow(rows[|rows| - 1])]
  }

  function NextAnswer(log: seq<Entry>, keys: seq<string>, d: int, n: nat, before: seq<Row>): seq<Row> {
    if before == [] then [] else Answer(log, keys, d, Ask(1, n, KeyOfRow(before[|before| - 1])))
  }

  ghost predicate Browsing(logs: seq<seq<Entry>>, stores: seq<seq<string>>, d: int, n: nat, answers: seq<seq<Row>>) {
    && |answers| == |logs| == |stores| > 0
    && answers[0] == Answer(logs[0], stores[0], d, Ask(0, n, ""))
    && forall i :: 0 < i < |answers| ==> answers[i] == NextAnswer(logs[i], stores[i], d, n, answers[i - 1])
  }

  lemma AskedRows(log: seq<Entry>, keys: seq<string>, vals: map<string, Value>, d: int, skip: nat, n: nat,
                  start: string)
    requires LogOk(log) && Represents(log, keys, vals) && n > 0
    ensures RowKeys(Answer(log, keys, d, Ask(skip, n, start))) == PageKeys(keys, skip, n, start)
  {
    RowsNameKeys(log, keys, vals, d, Ask(skip, n, start));
  }

  lemma NextRows(log: seq<Entry>, keys: seq<string>, vals: map<string, Value>, d: int, n: nat, before: seq<Row>)
    requires LogOk(log) && Represents(log, keys, vals) && n > 0
    ensures RowKeys(NextAnswer(log, keys, d, n, before)) == PageAfter(keys, n, RowKeys(before))
  {
    if before != [] { AskedRows(log, keys, vals, d, 1, n, KeyOfRow(before[|before| - 1])); }
  }

  function PagesOf(answers: seq<seq<Row>>): (pages: seq<seq<string>>)
    ensures |pages| == |answers| && forall i :: 0 <= i < |answers| ==> pages[i] == RowKeys(answers[i])
  {
    if answers == [] then [] else PagesOf(answers[..|answers| - 1]) + [RowKeys(answers[|answers| - 1])]
  }

  // The answers list the receipts of the first moment, newest first, without a gap or a repeat.
  lemma BrowsingIsStable(logs: seq<seq<Entry>>, stores: seq<seq<string>>, vals: seq<map<string, Value>>, d: int, n: nat,
                         answers: seq<seq<Row>>)
    requires Answering(logs, stores, vals) && n > 0 && Browsing(logs, stores, d, n, answers)
    ensures Join(PagesOf(answers)) == Take(Reverse(KeysOf(logs[0], Recorded())), Asked(|answers|, n))
  {
    var pages := PagesOf(answers);
    AskedRows(logs[0], stores[0], vals[0], d, 0, n, "");
    forall i | 0 < i < |pages| ensures pages[i] == PageAfter(stores[i], n, pages[i - 1]) {
      NextRows(logs[i], stores[i], vals[i], d, n, answers[i - 1]);
    }
    PagesOfLogs(logs, stores, vals, n, pages);
  }
}
