/** What a receipt query answers, read off the log, and how that compares with a plain scan. */
module ReceiptQuery {
  import opened Options
  import opened Lex
  import opened KVStores
  import opened KeySeqs
  import opened ReceiptLog

  datatype Query = Query(skip: int, limit: int, ids: seq<string>, since: int, from: string, to: string, start: string)

  // No stored address continues one of the query's after a colon.
  ghost predicate Apart(log: seq<Entry>, q: Query) {
    (q.from != "" ==> FromApart(log, q.from)) && (q.to != "" ==> ToApart(log, q.to))
  }

  // The store holds exactly what the log's writes left, its keys in order.
  ghost predicate Represents(log: seq<Entry>, keys: seq<string>, vals: map<string, Value>) {
    && Ascending(keys)
    && (forall k :: k in keys <==> k in vals)
    && (forall k :: k in vals <==> Lookup(log, k).Some?)
    && (forall k :: k in vals ==> vals[k] == Lookup(log, k).value)
  }

  // --- the `since` cut ---

  function SinceKey(since: nat): string { "receivedAt:" + Decimal(since) + ":" }

  // The entry whose receivedAt index key comes first at or after the search key.
  function LeastAt(log: seq<Entry>, since: nat): Option<Entry> {
    if log == [] then None else
      var e, rest := log[|log| - 1], LeastAt(log[..|log| - 1], since);
      if e.InAt() && AtMost(SinceKey(since), e.AtKey()) && (rest.None? || Less(e.AtKey(), rest.value.AtKey()))
      then Some(e) else rest
  }

  lemma {:induction false} LeastAtMeans(log: seq<Entry>, since: nat)
    ensures LeastAt(log, since).None? ==>
              forall i :: 0 <= i < |log| && log[i].InAt() ==> Less(log[i].AtKey(), SinceKey(since))
    ensures LeastAt(log, since).Some? ==>
              var e := LeastAt(log, since).value;
              && e in log && e.InAt() && AtMost(SinceKey(since), e.AtKey())
              && forall i :: 0 <= i < |log| && log[i].InAt() && AtMost(SinceKey(since), log[i].AtKey()) ==>
                   AtMost(e.AtKey(), log[i].AtKey())
  {
    if log == [] {
    } else {
      var n := |log| - 1;
      var e, rest := log[n], LeastAt(log[..n], since);
      LeastAtMeans(log[..n], since);
      forall i | 0 <= i < n ensures log[i] == log[..n][i] {}
      Irreflexive(e.AtKey());
      if rest.Some? && Less(e.AtKey(), rest.value.AtKey()) {
        forall i | 0 <= i < n && log[i].InAt() && AtMost(SinceKey(since), log[i].AtKey())
          ensures AtMost(e.AtKey(), log[i].AtKey())
        {
          Asymmetric(e.AtKey(), rest.value.AtKey());
          AtMostTransitive(e.AtKey(), rest.value.AtKey(), log[i].AtKey());
        }
      }
    }
  }

  // The indexed times have as many digits as the search time.
  ghost predicate SameWidth(log: seq<Entry>, since: nat) {
    OneWidth(log, |Decimal(since)|)
  }

  ghost predicate OneWidth(log: seq<Entry>, width: nat) {
    forall i :: 0 <= i < |log| && log[i].InAt() ==> |Decimal(log[i].receipt.receivedAt)| == width
  }

  ghost predicate InTimeOrder(log: seq<Entry>) {
    forall i, j :: 0 <= i < j < |log| ==> log[i].receipt.receivedAt <= log[j].receipt.receivedAt
  }

  ghost predicate IndexInOrder(log: seq<Entry>) {
    forall i, j :: 0 <= i < j < |log| && log[i].InAt() && log[j].InAt() ==>
        log[i].receipt.receivedAt <= log[j].receipt.receivedAt
  }

  // Index keys of equal-width times compare by time, then by lookup key.
  lemma AtKeyOrder(t: nat, x: string, u: nat, y: string)
    requires |Decimal(t)| == |Decimal(u)|
    ensures Less("receivedAt:" + Decimal(t) + ":" + x, "receivedAt:" + Decimal(u) + ":" + y)
            <==> t < u || (t == u && Less(x, y))
  {
    var p := "receivedAt:";
    assert p + Decimal(t) + ":" + x == p + (Decimal(t) + (":" + x));
    assert p + Decimal(u) + ":" + y == p + (Decimal(u) + (":" + y));
    CommonPrefix(p, Decimal(t) + (":" + x), Decimal(u) + (":" + y));
    EqualWidth(Decimal(t), Decimal(u), ":" + x, ":" + y);
    CommonPrefix(":", x, y);
    DecimalOrder(t, u);
  }

  lemma SinceReaches(e: Entry, since: nat)
    requires |Decimal(e.receipt.receivedAt)| == |Decimal(since)|
    ensures AtMost(SinceKey(since), e.AtKey()) <==> since <= e.receipt.receivedAt
  {
    AtKeyOrder(e.receipt.receivedAt, e.key, since, "");
    assert SinceKey(since) == "receivedAt:" + Decimal(since) + ":" + "";
  }

  // The key findEndPoint returns has entry `i` on the right side.
  predicate RightSide(log: seq<Entry>, since: nat, i: nat)
    requires i < |log|
  {
    match LeastAt(log, since)
    case None => log[i].receipt.receivedAt < since
    case Some(e) => AtMost(e.key, log[i].key) <==> since <= log[i].receipt.receivedAt
  }

  // It separates the receipts since then from the others, among all entries or among the indexed ones.
  ghost predicate CutExact(log: seq<Entry>, since: nat) {
    forall i :: 0 <= i < |log| ==> RightSide(log, since, i)
  }

  ghost predicate IndexCutExact(log: seq<Entry>, since: nat) {
    forall i :: 0 <= i < |log| && log[i].InAt() ==> RightSide(log, since, i)
  }

  // Where the least entry stands, when indexed times follow insertion order: nothing indexed before it qualifies.
  lemma LeastIsFirst(log: seq<Entry>, since: nat) returns (m: nat)
    requires LogOk(log) && SameWidth(log, since) && IndexInOrder(log) && LeastAt(log, since).Some?
    ensures m < |log| && log[m] == LeastAt(log, since).value && log[m].InAt() && since <= log[m].receipt.receivedAt
    ensures forall i :: 0 <= i < m && log[i].InAt() ==> log[i].receipt.receivedAt < since
    ensures forall i :: 0 <= i < |log| ==> (AtMost(log[m].key, log[i].key) <==> m <= i)
  {
    LeastAtMeans(log, since);
    var e := LeastAt(log, since).value;
    m :| 0 <= m < |log| && log[m] == e;
    SinceReaches(e, since);
    forall i | 0 <= i < m && log[i].InAt() ensures log[i].receipt.receivedAt < since {
      SinceReaches(log[i], since);
      AtKeyOrder(log[i].receipt.receivedAt, log[i].key, e.receipt.receivedAt, e.key);
    }
    forall i | 0 <= i < |log| ensures AtMost(log[m].key, log[i].key) <==> m <= i { KeyPositions(log, i, m); }
  }

  lemma NoneReached(log: seq<Entry>, since: nat)
    requires SameWidth(log, since) && LeastAt(log, since).None?
    ensures forall i :: 0 <= i < |log| && log[i].InAt() ==> log[i].receipt.receivedAt < since
  {
    LeastAtMeans(log, since);
    forall i | 0 <= i < |log| && log[i].InAt()
      ensures log[i].receipt.receivedAt < since
    {
      SinceReaches(log[i], since);
    }
  }

  lemma SinceCut(log: seq<Entry>, since: nat)
    requires LogOk(log) && SameWidth(log, since) && IndexInOrder(log)
    ensures IndexCutExact(log, since)
    ensures LeastAt(log, since).None?
            <==> forall i :: 0 <= i < |log| && log[i].InAt() ==> log[i].receipt.receivedAt < since
  {
    if LeastAt(log, since).None? {
      NoneReached(log, since);
    } else {
      var m := LeastIsFirst(log, since);
    }
  }

  // An entry whose add failed before its time was indexed is never cut off wrongly: an indexed one that
  // qualifies stands at or before it.
  ghost predicate NoneMissed(log: seq<Entry>, since: nat) {
    forall i :: 0 <= i < |log| && !log[i].InAt() && since <= log[i].receipt.receivedAt ==>
      exists j :: 0 <= j <= i && log[j].InAt() && since <= log[j].receipt.receivedAt
  }

  // For all entries, indexed or not, the cut is exact if and only if none is missed.
  lemma SinceCutAll(log: seq<Entry>, since: nat)
    requires LogOk(log) && SameWidth(log, since) && InTimeOrder(log)
    ensures CutExact(log, since) <==> NoneMissed(log, since)
  {
    var m := 0;
    if LeastAt(log, since).None? {
      NoneReached(log, since);
    } else {
      m := LeastIsFirst(log, since);
    }
    if NoneMissed(log, since) {
      forall i | 0 <= i < |log| ensures RightSide(log, since, i) {
        assert m < i ==> log[m].receipt.receivedAt <= log[i].receipt.receivedAt;
      }
    } else {
      var i :| 0 <= i < |log| && !log[i].InAt() && since <= log[i].receipt.receivedAt
               && forall j :: 0 <= j <= i && log[j].InAt() ==> log[j].receipt.receivedAt < since;
      assert !RightSide(log, since, i);
    }
  }

  lemma KeyPositions(log: seq<Entry>, i: nat, j: nat)
    requires LogOk(log) && i < |log| && j < |log|
    ensures Less(log[i].key, log[j].key) <==> i < j
  {
    if i < j { Asymmetric(log[i].key, log[j].key); }
    else if j < i { Asymmetric(log[j].key, log[i].key); }
    else { Irreflexive(log[i].key); }
  }

  // Among indexes of one width the cut is exact for every time exactly when times follow insertion order.
  lemma SinceCutExactly(log: seq<Entry>, width: nat)
    requires LogOk(log) && OneWidth(log, width)
    ensures IndexInOrder(log) <==> forall since: nat :: |Decimal(since)| == width ==> IndexCutExact(log, since)
  {
    if IndexInOrder(log) {
      forall since: nat | |Decimal(since)| == width ensures IndexCutExact(log, since) { SinceCut(log, since); }
    } else {
      var i, j :| 0 <= i < j < |log| && log[i].InAt() && log[j].InAt()
          && log[i].receipt.receivedAt > log[j].receipt.receivedAt;
      var since := log[i].receipt.receivedAt;
      LeastAtMeans(log, since);
      SinceReaches(log[i], since);
      var e := LeastAt(log, since).value;
      SinceReaches(e, since);
      AtKeyOrder(since, log[i].key, e.receipt.receivedAt, e.key);
      assert AtMost(e.key, log[i].key);
      AtMostLess(e.key, log[i].key, log[j].key);
      Asymmetric(e.key, log[j].key);
      assert !RightSide(log, since, j);
    }
  }

  lemma {:induction false} WidthOrder(a: nat, b: nat)
    requires a <= b
    ensures |Decimal(a)| <= |Decimal(b)|
  {
    if a < 10 {
    } else {
      WidthOrder(a / 10, b / 10);
    }
  }

  lemma AtKeysAscend(log: seq<Entry>, width: nat, i: nat, j: nat)
    requires LogOk(log) && IndexInOrder(log) && OneWidth(log, width) && i <= j < |log| && log[i].InAt() && log[j].InAt()
    ensures AtMost(log[i].AtKey(), log[j].AtKey())
  {
    AtKeyOrder(log[j].receipt.receivedAt, log[j].key, log[i].receipt.receivedAt, log[i].key);
    KeyPositions(log, j, i);
  }

  // `first` and `last` bound the indexed entries.
  ghost predicate Bounds(log: seq<Entry>, first: nat, last: nat) {
    && first <= last < |log| && log[first].InAt() && log[last].InAt()
    && forall i :: 0 <= i < |log| && log[i].InAt() ==> first <= i <= last
  }

  // A search time of another width is compared as text. With fewer digits than the indexed times it should
  // reach all of them, and does exactly if it reaches the first; with more digits it should reach none,
  // and does exactly if it does not reach the last.
  lemma SinceOtherWidth(log: seq<Entry>, since: nat, width: nat, first: nat, last: nat)
    requires LogOk(log) && IndexInOrder(log) && OneWidth(log, width) && Bounds(log, first, last)
    requires |Decimal(since)| != width
    ensures IndexCutExact(log, since) <==> if |Decimal(since)| < width then AtMost(SinceKey(since), log[first].AtKey())
                                           else Less(log[last].AtKey(), SinceKey(since))
  {
    forall i | 0 <= i < |log| && log[i].InAt()
      ensures since <= log[i].receipt.receivedAt <==> |Decimal(since)| < width
    {
      if since <= log[i].receipt.receivedAt { WidthOrder(since, log[i].receipt.receivedAt); }
      else { WidthOrder(log[i].receipt.receivedAt, since); }
    }
    if |Decimal(since)| < width {
      FewerDigits(log, since, width, first, last);
    } else {
      MoreDigits(log, since, width, first, last);
    }
  }

  lemma FewerDigits(log: seq<Entry>, since: nat, width: nat, first: nat, last: nat)
    requires LogOk(log) && IndexInOrder(log) && OneWidth(log, width) && Bounds(log, first, last)
    requires forall i :: 0 <= i < |log| && log[i].InAt() ==> since <= log[i].receipt.receivedAt
    ensures IndexCutExact(log, since) <==> AtMost(SinceKey(since), log[first].AtKey())
  {
    LeastAtMeans(log, since);
    if LeastAt(log, since).None? {
      assert !RightSide(log, since, first);
    } else {
      var e := LeastAt(log, since).value;
      var m :| 0 <= m < |log| && log[m] == e;
      AtKeysAscend(log, width, first, m);
      forall i | 0 <= i < |log| ensures AtMost(e.key, log[i].key) <==> m <= i { KeyPositions(log, i, m); }
      AtKeyOrder(log[first].receipt.receivedAt, log[first].key, e.receipt.receivedAt, e.key);
      assert m != first ==> !RightSide(log, since, first);
      assert m == first ==> IndexCutExact(log, since);
    }
  }

  lemma MoreDigits(log: seq<Entry>, since: nat, width: nat, first: nat, last: nat)
    requires LogOk(log) && IndexInOrder(log) && OneWidth(log, width) && Bounds(log, first, last)
    requires forall i :: 0 <= i < |log| && log[i].InAt() ==> log[i].receipt.receivedAt < since
    ensures IndexCutExact(log, since) <==> Less(log[last].AtKey(), SinceKey(since))
  {
    LeastAtMeans(log, since);
    if LeastAt(log, since).Some? {
      var e := LeastAt(log, since).value;
      var m :| 0 <= m < |log| && log[m] == e;
      Irreflexive(e.key);
      AtKeysAscend(log, width, m, last);
      AtMostTransitive(SinceKey(since), e.AtKey(), log[last].AtKey());
      assert !RightSide(log, since, m);
    }
  }

  // A search time with fewer digits can sort after every stored one: "since 9" misses a receipt of time 10.
  lemma ShortSinceMisses()
    ensures var log := [Entry("z1", "a", Receipt(Some("x"), None, 10, ""), 4)];
            LogOk(log) && NoneMissed(log, 9) && InTimeOrder(log) && LeastAt(log, 9).None? && !IndexCutExact(log, 9)
  {
    var e := Entry("z1", "a", Receipt(Some("x"), None, 10, ""), 4);
    assert Decimal(10) == "10" && Decimal(9) == "9";
    assert e.AtKey() == "receivedAt:" + "10:z1" && SinceKey(9) == "receivedAt:" + "9:";
    CommonPrefix("receivedAt:", "10:z1", "9:");
    assert LeastAt([e][..0], 9).None?;
    assert !RightSide([e], 9, 0);
  }

  // --- the unfiltered page ---

  // The first of ascending keys at or after `start`.
  function Ceiling(keys: seq<string>, start: string): Option<string> {
    if keys == [] then None else if AtMost(start, keys[0]) then Some(keys[0]) else Ceiling(keys[1..], start)
  }

  function IsRecord(): string -> bool { k => IsRecordKey(k) }

  function NotAfter(c: string): string -> bool { k => AtMost(k, c) }

  function Recorded(): Entry -> bool { (e: Entry) => e.InRecord() }

  // The record keys a page is cut from, oldest first.
  function UpTo(keys: seq<string>, start: string): seq<string> {
    var records := Keep(keys, IsRecord());
    if start == "" then records else
      match Ceiling(keys, start)
      case None => []
      case Some(c) => Keep(records, NotAfter(c))
  }

  function PageKeys(keys: seq<string>, skip: int, limit: int, start: string): seq<string> {
    Limit(Drop(Reverse(UpTo(keys, start)), if skip < 0 then 0 else skip), limit)
  }

  // Records come after everything else the store holds.
  ghost predicate RecordsLast(keys: seq<string>) {
    forall i, j :: 0 <= i < j < |keys| && IsRecordKey(keys[i]) ==> IsRecordKey(keys[j])
  }

  ghost predicate Decodable(keys: seq<string>, vals: map<string, Value>) {
    forall k :: k in keys && IsRecordKey(k) ==> k in vals && vals[k].Doc?
  }

  lemma NonRecordFirst(log: seq<Entry>, k: string)
    requires LogOk(log) && Lookup(log, k).Some? && !IsRecordKey(k)
    ensures k != "" && k[0] < 'z'
  {
    LookupFinds(log, k);
    var i :| 0 <= i < |log| && log[i].Written(k) == Lookup(log, k);
    var e := log[i];
    assert e.FromKey()[0] == 'f' && e.AtKey()[0] == 'r' && (HasTo(e.receipt) ==> e.ToKey()[0] == 't');
  }

  lemma RecordsComeLast(log: seq<Entry>, keys: seq<string>, vals: map<string, Value>)
    requires LogOk(log) && Represents(log, keys, vals)
    ensures RecordsLast(keys) && Decodable(keys, vals)
    ensures Keep(keys, IsRecord()) == KeysOf(log, Recorded())
  {
    forall i, j | 0 <= i < j < |keys| && IsRecordKey(keys[i]) ensures IsRecordKey(keys[j]) {
      if !IsRecordKey(keys[j]) {
        NonRecordFirst(log, keys[j]);
      }
    }
    forall k | IsRecordKey(k)
      ensures k in keys <==> exists i :: 0 <= i < |log| && log[i].InRecord() && log[i].key == k
      ensures k in keys ==> vals[k].Doc?
    {
      Records(log, k);
    }
    KeepMembers(keys, IsRecord());
    KeepAscending(keys, IsRecord());
    KeysOfMembers(log, Recorded());
    KeysOfAscending(log, Recorded());
    AscendingUnique(Keep(keys, IsRecord()), KeysOf(log, Recorded()));
  }

  lemma {:induction false} CeilingMeans(keys: seq<string>, start: string)
    requires Ascending(keys)
    ensures Ceiling(keys, start).None? ==> forall k :: k in keys ==> Less(k, start)
    ensures Ceiling(keys, start).Some? ==>
              && Ceiling(keys, start).value in keys && AtMost(start, Ceiling(keys, start).value)
              && forall k :: k in keys && AtMost(start, k) ==> AtMost(Ceiling(keys, start).value, k)
  {
    if keys == [] {
    } else {
      CeilingMeans(keys[1..], start);
      assert keys == [keys[0]] + keys[1..];
      Irreflexive(keys[0]);
      forall k | k in keys[1..] ensures Less(keys[0], k) && AtMost(keys[0], k) {
        Asymmetric(keys[0], k);
      }
    }
  }

  // Starting at a key the store holds, a page begins with that very key.
  lemma UpToStored(keys: seq<string>, start: string)
    requires Ascending(keys) && start in keys && start != ""
    ensures UpTo(keys, start) == Keep(Keep(keys, IsRecord()), NotAfter(start))
  {
    CeilingMeans(keys, start);
    Irreflexive(start);
    Total(start, Ceiling(keys, start).value);
  }

  // --- filters: IDs, addresses, and the bounds ---

  function SentFrom(a: string): Entry -> bool {
    (e: Entry) => e.InFrom() && (e.receipt.from == Some(a) || (e.receipt.from.None? && a == "%!s(<nil>)"))
  }

  function SentTo(a: string): Entry -> bool { (e: Entry) => e.InTo() && e.receipt.to == Some(a) }

  function InBounds(end: string, start: string): string -> bool {
    (k: string) => (end == "" || AtMost(end, k)) && (start == "" || Less(k, start))
  }

  function Among(s: seq<string>): string -> bool { (k: string) => k in s }

  // An index scan takes its first hit before it looks at the limit, and always the oldest hits.
  function ScanLimit(limit: int): nat { if limit < 1 then 1 else limit }

  function ByFromAndTo(log: seq<Entry>, q: Query, end: string, limit: int): seq<string> {
    var from, to :=
        Take(KeysOf(log, SentFrom(q.from)), ScanLimit(limit)), Take(KeysOf(log, SentTo(q.to)), ScanLimit(limit));
    Keep(if q.to == "" then from else if q.from == "" then to else Keep(from, Among(to)), InBounds(end, q.start))
  }

  // Stored bytes as a string; a receipt's JSON starts with a brace.
  function Bytes(v: Value): string {
    match v
    case Ref(k) => k
    case Doc(r) => "{" + r.body
  }

  function IdKeys(log: seq<Entry>, ids: seq<string>): seq<string> {
    if ids == [] then [] else
      var n := |ids| - 1;
      var v := Lookup(log, ids[n]);
      IdKeys(log, ids[..n]) + if v.Some? then [Bytes(v.value)] else []
  }

  function ByIds(log: seq<Entry>, q: Query, end: string): seq<string> {
    Keep(SortStrings(IdKeys(log, q.ids)), InBounds(end, q.start))
  }

  // The lookup keys a filter leaves; None, Go's nil slice, when there is no filter at all.
  function Chosen(log: seq<Entry>, q: Query, end: string, limit: int): Option<seq<string>> {
    if q.from == "" && q.to == "" then if q.ids == [] then None else Some(ByIds(log, q, end))
    else if q.ids == [] then Some(ByFromAndTo(log, q, end, limit))
    else Some(Keep(ByIds(log, q, end), Among(ByFromAndTo(log, q, end, limit))))
  }

  // Newest first, cut to the limit.
  function Newest(keys: seq<string>, limit: int): seq<string> {
    Limit(Reverse(SortStrings(keys)), limit)
  }

  // --- the plain scan: every condition tested on every entry ---

  // The latest completed add of its request.
  predicate IsLatest(log: seq<Entry>, e: Entry) {
    && e.InId()
    && forall i :: 0 <= i < |log| && log[i].InId() && log[i].requestId == e.requestId ==> AtMost(log[i].key, e.key)
  }

  predicate Meets(log: seq<Entry>, q: Query, end: string, e: Entry) {
    && e.InRecord()
    && (q.ids != [] ==> e.requestId in q.ids && IsLatest(log, e))
    && (q.from != "" ==>
          e.InFrom() && (e.receipt.from == Some(q.from) || (e.receipt.from.None? && q.from == "%!s(<nil>)")))
    && (q.to != "" ==> e.InTo() && e.receipt.to == Some(q.to))
    && (end != "" ==> AtMost(end, e.key)) && (q.start != "" ==> Less(e.key, q.start))
  }

  function Meeting(log: seq<Entry>, q: Query, end: string): Entry -> bool {
    (e: Entry) => Meets(log, q, end, e)
  }

  function Scan(log: seq<Entry>, q: Query, end: string, limit: int): seq<string> {
    Limit(Reverse(KeysOf(log, Meeting(log, q, end))), limit)
  }

  lemma {:induction false} IdKeysMembers(log: seq<Entry>, ids: seq<string>)
    requires LogOk(log) && forall id :: id in ids ==> RequestIdOk(id)
    ensures forall k :: k in IdKeys(log, ids) <==> exists id :: id in ids && Lookup(log, id) == Some(Ref(k))
  {
    if ids == [] {
    } else {
      var n := |ids| - 1;
      IdKeysMembers(log, ids[..n]);
      RequestIds(log, ids[n]);
      assert ids == ids[..n] + [ids[n]];
      forall k ensures k in IdKeys(log, ids) <==> exists id :: id in ids && Lookup(log, id) == Some(Ref(k)) {
        if id :| id in ids && Lookup(log, id) == Some(Ref(k)) {
          assert id in ids[..n] || id == ids[n];
        }
      }
    }
  }

  // The add a request ID leads to is its latest completed one.
  lemma LatestIsFound(log: seq<Entry>, i: nat, ids: seq<string>)
    requires LogOk(log) && i < |log| && forall id :: id in ids ==> RequestIdOk(id)
    ensures log[i].requestId in ids && IsLatest(log, log[i])
            <==> exists id :: id in ids && Lookup(log, id) == Some(Ref(log[i].key))
  {
    if log[i].requestId in ids && IsLatest(log, log[i]) {
      RequestIds(log, log[i].requestId);
      var j :| 0 <= j < |log| && log[j].InId() && log[j].requestId == log[i].requestId
               && Lookup(log, log[i].requestId) == Some(Ref(log[j].key))
               && forall m :: j < m < |log| ==> !(log[m].InId() && log[m].requestId == log[i].requestId);
      KeyPositions(log, i, j);
    }
    if id :| id in ids && Lookup(log, id) == Some(Ref(log[i].key)) {
      RequestIds(log, id);
      var j :| 0 <= j < |log| && log[j].InId() && log[j].requestId == id && Lookup(log, id) == Some(Ref(log[j].key))
               && forall m :: j < m < |log| ==> !(log[m].InId() && log[m].requestId == id);
      SameKey(log, i, j);
      forall m | 0 <= m < |log| && log[m].InId() && log[m].requestId == id ensures AtMost(log[m].key, log[i].key) {
        KeyPositions(log, i, m);
      }
    }
  }

  lemma SameKey(log: seq<Entry>, i: nat, j: nat)
    requires LogOk(log) && i < |log| && j < |log| && log[i].key == log[j].key
    ensures i == j
  {
    KeyPositions(log, i, j);
    KeyPositions(log, j, i);
    Irreflexive(log[i].key);
  }

  // Two requests never share a lookup key.
  lemma IdKeyInjective(log: seq<Entry>, id: string, id': string)
    requires LogOk(log) && RequestIdOk(id) && RequestIdOk(id')
    requires Lookup(log, id).Some? && Lookup(log, id) == Lookup(log, id')
    ensures id == id'
  {
    RequestIds(log, id);
    RequestIds(log, id');
    var i :| 0 <= i < |log| && log[i].requestId == id && Lookup(log, id) == Some(Ref(log[i].key));
    var j :| 0 <= j < |log| && log[j].requestId == id' && Lookup(log, id') == Some(Ref(log[j].key));
    KeyPositions(log, i, j);
    KeyPositions(log, j, i);
    Irreflexive(log[i].key);
  }

  lemma {:induction false} IdKeysDistinct(log: seq<Entry>, ids: seq<string>)
    requires LogOk(log) && (forall id :: id in ids ==> RequestIdOk(id)) && Distinct(ids)
    ensures Distinct(IdKeys(log, ids))
  {
    if ids == [] {
    } else {
      var n := |ids| - 1;
      IdKeysDistinct(log, ids[..n]);
      IdKeysMembers(log, ids[..n]);
      RequestIds(log, ids[n]);
      if Lookup(log, ids[n]).Some? && Bytes(Lookup(log, ids[n]).value) in IdKeys(log, ids[..n]) {
        var id :| id in ids[..n] && Lookup(log, id) == Lookup(log, ids[n]);
        IdKeyInjective(log, id, ids[n]);
      }
    }
  }

  // What the two index scans see: the oldest hits.
  function FromSeen(log: seq<Entry>, q: Query, limit: int): seq<string> { Take(KeysOf(log, SentFrom(q.from)),
                    ScanLimit(limit)) }

  function ToSeen(log: seq<Entry>, q: Query, limit: int): seq<string> { Take(KeysOf(log, SentTo(q.to)),
                  ScanLimit(limit)) }

  predicate Seen(log: seq<Entry>, q: Query, limit: int, k: string) {
    (q.from != "" ==> k in FromSeen(log, q, limit)) && (q.to != "" ==> k in ToSeen(log, q, limit))
  }

  // An entry that passes the test, up to key `k`.
  function UpToKey(f: Entry -> bool, k: string): Entry -> bool { (e: Entry) => f(e) && AtMost(e.key, k) }

  // Counted from the oldest, `k` is among the first hits: as many as the limit, and one at least.
  predicate AmongFirst(log: seq<Entry>, f: Entry -> bool, k: string, limit: int) {
    |Matching(log, UpToKey(f, k))| <= if limit < 1 then 1 else limit
  }

  // There is no match, or the newest one is among the first hits of each index scan.
  predicate NewestSeen(log: seq<Entry>, q: Query, end: string, limit: int) {
    var matches := KeysOf(log, Meeting(log, q, end));
    matches == [] ||
    var k := matches[|matches| - 1];
    && (q.from != "" ==> AmongFirst(log, SentFrom(q.from), k, limit))
    && (q.to != "" ==> AmongFirst(log, SentTo(q.to), k, limit))
  }

  lemma TakenIsFirst(log: seq<Entry>, f: Entry -> bool, k: string, limit: int)
    requires LogOk(log) && k in KeysOf(log, f)
    ensures k in Take(KeysOf(log, f), ScanLimit(limit)) <==> AmongFirst(log, f, k, limit)
  {
    var all := KeysOf(log, f);
    KeysOfAscending(log, f);
    var i :| 0 <= i < |all| && all[i] == k;
    forall j | 0 <= j < |all| ensures NotAfter(k)(all[j]) <==> j < i + 1 { AscendingMembers(all, i, j); }
    KeepFirst(all, i + 1, NotAfter(k));
    KeepKeysOf(log, f, NotAfter(k), UpToKey(f, k));
    KeysOfMatching(log, UpToKey(f, k));
    forall j | 0 <= j < |all| && all[j] == k ensures j == i { AscendingMembers(all, i, j); }
  }

  lemma SeenNewest(log: seq<Entry>, q: Query, end: string, limit: int)
    requires LogOk(log) && IdsOk(q) && Filtered(q)
    ensures var matches := KeysOf(log, Meeting(log, q, end));
            NewestSeen(log, q, end, limit) <==> matches == [] || Seen(log, q, limit, matches[|matches| - 1])
  {
    var matches := KeysOf(log, Meeting(log, q, end));
    if matches != [] {
      var k := matches[|matches| - 1];
      assert k in matches;
      MeetingMembers(log, q, end, k);
      if q.from != "" { TakenIsFirst(log, SentFrom(q.from), k, limit); }
      if q.to != "" { TakenIsFirst(log, SentTo(q.to), k, limit); }
    }
  }

  lemma ByIdsChosen(log: seq<Entry>, q: Query, end: string)
    requires LogOk(log) && (forall id :: id in q.ids ==> RequestIdOk(id)) && Distinct(q.ids)
    ensures Ascending(ByIds(log, q, end))
    ensures forall k :: k in ByIds(log, q, end) <==>
                          InBounds(end, q.start)(k) && exists id :: id in q.ids && Lookup(log, id) == Some(Ref(k))
  {
    var found := IdKeys(log, q.ids);
    IdKeysMembers(log, q.ids);
    IdKeysDistinct(log, q.ids);
    SortDistinct(found);
    SortMembers(found);
    KeepMembers(SortStrings(found), InBounds(end, q.start));
    KeepAscending(SortStrings(found), InBounds(end, q.start));
  }

  lemma ByAddressChosen(log: seq<Entry>, q: Query, end: string, limit: int)
    requires LogOk(log) && (q.from != "" || q.to != "")
    ensures Ascending(ByFromAndTo(log, q, end, limit))
    ensures forall k :: k in ByFromAndTo(log, q, end, limit) <==> InBounds(end, q.start)(k) && Seen(log, q, limit, k)
  {
    var from, to := FromSeen(log, q, limit), ToSeen(log, q, limit);
    KeysOfAscending(log, SentFrom(q.from));
    KeysOfAscending(log, SentTo(q.to));
    KeepMembers(from, Among(to));
    KeepAscending(from, Among(to));
    var base := if q.to == "" then from else if q.from == "" then to else Keep(from, Among(to));
    KeepMembers(base, InBounds(end, q.start));
    KeepAscending(base, InBounds(end, q.start));
  }

  // Entries are told apart by their keys.
  lemma SameKeySameEntry(log: seq<Entry>, f: Entry -> bool, i: nat)
    requires LogOk(log) && i < |log|
    ensures log[i].key in KeysOf(log, f) <==> f(log[i])
  {
    KeysOfMembers(log, f);
    if j :| 0 <= j < |log| && f(log[j]) && log[j].key == log[i].key {
      KeyPositions(log, i, j);
      KeyPositions(log, j, i);
      Irreflexive(log[i].key);
    }
  }

  predicate Filtered(q: Query) { q.ids != [] || q.from != "" || q.to != "" }

  ghost predicate IdsOk(q: Query) { (forall id :: id in q.ids ==> RequestIdOk(id)) && Distinct(q.ids) }

  lemma ChosenAscending(log: seq<Entry>, q: Query, end: string, limit: int)
    requires LogOk(log) && IdsOk(q) && Filtered(q)
    ensures Ascending(Chosen(log, q, end, limit).value)
  {
    ByIdsChosen(log, q, end);
    if q.from != "" || q.to != "" {
      ByAddressChosen(log, q, end, limit);
      KeepAscending(ByIds(log, q, end), Among(ByFromAndTo(log, q, end, limit)));
    }
  }

  lemma ChosenMembers(log: seq<Entry>, q: Query, end: string, limit: int, k: string)
    requires LogOk(log) && IdsOk(q) && Filtered(q)
    ensures k in Chosen(log, q, end, limit).value <==>
            && InBounds(end, q.start)(k) && Seen(log, q, limit, k)
            && (q.ids != [] ==> exists id :: id in q.ids && Lookup(log, id) == Some(Ref(k)))
  {
    ByIdsChosen(log, q, end);
    if q.from != "" || q.to != "" {
      ByAddressChosen(log, q, end, limit);
      KeepMembers(ByIds(log, q, end), Among(ByFromAndTo(log, q, end, limit)));
    }
  }

  lemma TakeMembers(s: seq<string>, n: nat, k: string)
    ensures k in Take(s, n) ==> k in s
  {
  }

  lemma MeetingMembers(log: seq<Entry>, q: Query, end: string, k: string)
    requires LogOk(log) && IdsOk(q) && Filtered(q)
    ensures k in KeysOf(log, Meeting(log, q, end)) <==>
            && InBounds(end, q.start)(k)
            && (q.ids != [] ==> exists id :: id in q.ids && Lookup(log, id) == Some(Ref(k)))
            && (q.from != "" ==> k in KeysOf(log, SentFrom(q.from)))
            && (q.to != "" ==> k in KeysOf(log, SentTo(q.to)))
  {
    KeysOfMembers(log, Meeting(log, q, end));
    KeysOfMembers(log, SentFrom(q.from));
    KeysOfMembers(log, SentTo(q.to));
    forall i | 0 <= i < |log|
      ensures log[i].requestId in q.ids && IsLatest(log, log[i])
              <==> exists id :: id in q.ids && Lookup(log, id) == Some(Ref(log[i].key))
    {
      LatestIsFound(log, i, q.ids);
    }
    if && (q.ids != [] ==> exists id :: id in q.ids && Lookup(log, id) == Some(Ref(k)))
       && (q.from != "" ==> k in KeysOf(log, SentFrom(q.from)))
       && (q.to != "" ==> k in KeysOf(log, SentTo(q.to)))
    {
      var i := HasEntry(log, q, k);
      SameKeySameEntry(log, SentFrom(q.from), i);
      SameKeySameEntry(log, SentTo(q.to), i);
      SameKeySameEntry(log, Meeting(log, q, end), i);
    }
  }

  // The filters choose the matches that the scans see.
  lemma ChosenIsSeen(log: seq<Entry>, q: Query, end: string, limit: int, k: string)
    requires LogOk(log) && IdsOk(q) && Filtered(q)
    ensures k in Chosen(log, q, end, limit).value <==> k in KeysOf(log, Meeting(log, q, end)) && Seen(log, q, limit, k)
  {
    ChosenMembers(log, q, end, limit, k);
    MeetingMembers(log, q, end, k);
    TakeMembers(KeysOf(log, SentFrom(q.from)), ScanLimit(limit), k);
    TakeMembers(KeysOf(log, SentTo(q.to)), ScanLimit(limit), k);
  }

  // A scan that sees a key sees every older one.
  lemma OlderTaken(s: seq<string>, n: nat, k: string, older: string)
    requires Ascending(s) && k in Take(s, n) && older in s && Less(older, k)
    ensures older in Take(s, n)
  {
    var i :| 0 <= i < |Take(s, n)| && Take(s, n)[i] == k;
    var j :| 0 <= j < |s| && s[j] == older;
    AscendingMembers(s, j, i);
    assert Take(s, n)[j] == older;
  }

  lemma OlderSeen(log: seq<Entry>, q: Query, end: string, limit: int, k: string, older: string)
    requires LogOk(log) && IdsOk(q) && Filtered(q) && Seen(log, q, limit, k)
    requires older in KeysOf(log, Meeting(log, q, end)) && Less(older, k)
    ensures Seen(log, q, limit, older)
  {
    MeetingMembers(log, q, end, older);
    KeysOfAscending(log, SentFrom(q.from));
    KeysOfAscending(log, SentTo(q.to));
    if q.from != "" { OlderTaken(KeysOf(log, SentFrom(q.from)), ScanLimit(limit), k, older); }
    if q.to != "" { OlderTaken(KeysOf(log, SentTo(q.to)), ScanLimit(limit), k, older); }
  }

  lemma SeenIsScan(log: seq<Entry>, q: Query, end: string, limit: int)
    requires LogOk(log) && IdsOk(q) && Filtered(q) && NewestSeen(log, q, end, limit)
    ensures Newest(Chosen(log, q, end, limit).value, limit) == Scan(log, q, end, limit)
  {
    var chosen, matches := Chosen(log, q, end, limit).value, KeysOf(log, Meeting(log, q, end));
    ChosenAscending(log, q, end, limit);
    KeysOfAscending(log, Meeting(log, q, end));
    SortAscending(chosen);
    forall k ensures k in chosen <==> k in matches {
      ChosenIsSeen(log, q, end, limit, k);
      if k in matches { AllSeen(log, q, end, limit, k); }
    }
    AscendingUnique(chosen, matches);
  }

  lemma MissedIsNot(log: seq<Entry>, q: Query, end: string, limit: int)
    requires LogOk(log) && IdsOk(q) && Filtered(q) && !NewestSeen(log, q, end, limit)
    ensures Newest(Chosen(log, q, end, limit).value, limit) != Scan(log, q, end, limit)
  {
    NewestMissed(log, q, end, limit);
    MissingIsNot(Chosen(log, q, end, limit).value, log, q, end, limit);
  }

  lemma MissingIsNot(chosen: seq<string>, log: seq<Entry>, q: Query, end: string, limit: int)
    requires SortStrings(chosen) == chosen && LastIsMissing(chosen, KeysOf(log, Meeting(log, q, end)))
    ensures Newest(chosen, limit) != Scan(log, q, end, limit)
  {
    NewestDiffers(chosen, KeysOf(log, Meeting(log, q, end)), limit);
  }

  ghost predicate LastIsMissing(chosen: seq<string>, matches: seq<string>) {
    matches != [] && matches[|matches| - 1] !in chosen
  }

  lemma NewestMissed(log: seq<Entry>, q: Query, end: string, limit: int)
    requires LogOk(log) && IdsOk(q) && Filtered(q) && !NewestSeen(log, q, end, limit)
    ensures var chosen := Chosen(log, q, end, limit).value;
            SortStrings(chosen) == chosen && LastIsMissing(chosen, KeysOf(log, Meeting(log, q, end)))
  {
    var k := UnseenMatch(log, q, end, limit);
    UnseenNotChosen(log, q, end, limit, k);
    ChosenSorted(log, q, end, limit);
  }

  // The newest match, which the scans do not reach.
  lemma UnseenMatch(log: seq<Entry>, q: Query, end: string, limit: int) returns (k: string)
    requires LogOk(log) && IdsOk(q) && Filtered(q) && !NewestSeen(log, q, end, limit)
    ensures var matches := KeysOf(log, Meeting(log, q, end)); matches != [] && k == matches[|matches| - 1]
    ensures !Seen(log, q, limit, k)
  {
    SeenNewest(log, q, end, limit);
    var matches := KeysOf(log, Meeting(log, q, end));
    k := matches[|matches| - 1];
  }

  lemma UnseenNotChosen(log: seq<Entry>, q: Query, end: string, limit: int, k: string)
    requires LogOk(log) && IdsOk(q) && Filtered(q) && !Seen(log, q, limit, k)
    ensures k !in Chosen(log, q, end, limit).value
  {
    ChosenIsSeen(log, q, end, limit, k);
  }

  lemma ChosenSorted(log: seq<Entry>, q: Query, end: string, limit: int)
    requires LogOk(log) && IdsOk(q) && Filtered(q)
    ensures SortStrings(Chosen(log, q, end, limit).value) == Chosen(log, q, end, limit).value
  {
    ChosenAscending(log, q, end, limit);
    SortAscending(Chosen(log, q, end, limit).value);
  }

  lemma NewestDiffers(chosen: seq<string>, matches: seq<string>, limit: int)
    requires SortStrings(chosen) == chosen && matches != [] && matches[|matches| - 1] !in chosen
    ensures Newest(chosen, limit) != Limit(Reverse(matches), limit)
  {
    LastMissing(chosen, matches, limit);
  }

  // For every mix of filters, bounds and limits: what is chosen, newest first, is the plain scan if and only
  // if the index scans reach the newest match.
  lemma FilteredIsScanExactly(log: seq<Entry>, q: Query, end: string, limit: int)
    requires LogOk(log) && IdsOk(q) && Filtered(q)
    ensures Chosen(log, q, end, limit).Some?
    ensures Newest(Chosen(log, q, end, limit).value, limit) == Scan(log, q, end, limit)
            <==> NewestSeen(log, q, end, limit)
  {
    if NewestSeen(log, q, end, limit) { SeenIsScan(log, q, end, limit); } else { MissedIsNot(log, q, end, limit); }
  }

  lemma AllSeen(log: seq<Entry>, q: Query, end: string, limit: int, k: string)
    requires LogOk(log) && IdsOk(q) && Filtered(q) && NewestSeen(log, q, end, limit)
    requires k in KeysOf(log, Meeting(log, q, end))
    ensures Seen(log, q, limit, k)
  {
    var matches := KeysOf(log, Meeting(log, q, end));
    KeysOfAscending(log, Meeting(log, q, end));
    SeenNewest(log, q, end, limit);
    var i :| 0 <= i < |matches| && matches[i] == k;
    AscendingMembers(matches, i, |matches| - 1);
    if i < |matches| - 1 { OlderSeen(log, q, end, limit, matches[|matches| - 1], k); }
  }

  lemma LastMissing(chosen: seq<string>, matches: seq<string>, limit: int)
    requires matches != [] && matches[|matches| - 1] !in chosen
    ensures Limit(Reverse(chosen), limit) != Limit(Reverse(matches), limit)
  {
    ReverseCutFirst(matches, limit);
    if chosen != [] {
      ReverseCutFirst(chosen, limit);
      assert chosen[|chosen| - 1] in chosen;
    }
  }

  lemma ReverseCutFirst(s: seq<string>, limit: int)
    requires s != []
    ensures var r := Limit(Reverse(s), limit); r != [] && r[0] == s[|s| - 1]
  {
    ReverseAt(s, 0);
  }

  // A key that passed any filter is that of an entry with a stored record.
  lemma HasEntry(log: seq<Entry>, q: Query, k: string) returns (i: nat)
    requires LogOk(log) && (forall id :: id in q.ids ==> RequestIdOk(id))
    requires q.ids != [] || q.from != "" || q.to != ""
    requires q.ids != [] ==> exists id :: id in q.ids && Lookup(log, id) == Some(Ref(k))
    requires q.from != "" ==> k in KeysOf(log, SentFrom(q.from))
    requires q.to != "" ==> k in KeysOf(log, SentTo(q.to))
    ensures i < |log| && log[i].key == k && log[i].InRecord()
  {
    if q.from != "" {
      KeysOfMembers(log, SentFrom(q.from));
      i :| 0 <= i < |log| && SentFrom(q.from)(log[i]) && log[i].key == k;
    } else if q.to != "" {
      KeysOfMembers(log, SentTo(q.to));
      i :| 0 <= i < |log| && SentTo(q.to)(log[i]) && log[i].key == k;
    } else {
      var id :| id in q.ids && Lookup(log, id) == Some(Ref(k));
      RequestIds(log, id);
      i :| 0 <= i < |log| && log[i].InId() && Lookup(log, id) == Some(Ref(log[i].key));
    }
  }

  // --- whole answers ---

  // One returned receipt; only an unfiltered page says which key it came from.
  datatype Row = Row(sequenceKey: Option<string>, receipt: Receipt)

  function Rows(log: seq<Entry>, keys: seq<string>, paged: bool): seq<Row> {
    if keys == [] then [] else
      var n := |keys| - 1;
      var v := Lookup(log, keys[n]);
      Rows(log, keys[..n], paged) +
        if v.Some? && v.value.Doc? then [Row(if paged then Some(keys[n]) else None, v.value.receipt)] else []
  }

  lemma {:induction false} RowsAt(log: seq<Entry>, keys: seq<string>, paged: bool)
    requires forall j :: 0 <= j < |keys| ==> Lookup(log, keys[j]).Some? && Lookup(log, keys[j]).value.Doc?
    ensures |Rows(log, keys, paged)| == |keys|
    ensures forall j :: 0 <= j < |keys| ==>
              Rows(log, keys, paged)[j] ==
              Row(if paged then Some(keys[j]) else None, Lookup(log, keys[j]).value.receipt)
  {
    if keys == [] {
    } else {
      RowsAt(log, keys[..|keys| - 1], paged);
    }
  }

  function NotBefore(end: string): string -> bool { k => AtMost(end, k) }

  function LimitOf(q: Query, defaultLimit: int): int { if q.limit == 0 then defaultLimit else q.limit }

  // GetReceipts on a store holding `log`, whose keys are `keys`.
  function Answer(log: seq<Entry>, keys: seq<string>, defaultLimit: int, q: Query): seq<Row> {
    var least := if q.since > 0 then LeastAt(log, q.since) else None;
    if q.since > 0 && least.None? then [] else
      var end := if q.since > 0 then least.value.key else "";
      var limit := LimitOf(q, defaultLimit);
      match Chosen(log, q, end, limit)
      case Some(chosen) => Rows(log, Newest(chosen, limit), false)
      case None => Rows(log, PageKeys(Keep(keys, NotBefore(end)), q.skip, limit, q.start), true)
  }

  // Every condition of the query, tested on the entry itself.
  predicate Qualifies(log: seq<Entry>, q: Query, e: Entry) {
    Meets(log, q, "", e) && (q.since > 0 ==> q.since <= e.receipt.receivedAt)
  }

  function Qualifying(log: seq<Entry>, q: Query): Entry -> bool { (e: Entry) => Qualifies(log, q, e) }

  lemma {:induction false} KeysOfSame(log: seq<Entry>, f: Entry -> bool, g: Entry -> bool)
    requires forall i :: 0 <= i < |log| ==> f(log[i]) == g(log[i])
    ensures KeysOf(log, f) == KeysOf(log, g)
  {
    if log == [] {
    } else {
      KeysOfSame(log[..|log| - 1], f, g);
    }
  }

  lemma {:induction false} KeysOfNone(log: seq<Entry>, f: Entry -> bool)
    requires forall i :: 0 <= i < |log| ==> !f(log[i])
    ensures KeysOf(log, f) == []
  {
    if log == [] {
    } else {
      KeysOfNone(log[..|log| - 1], f);
    }
  }

  // The lookup key the `since` search starts its range at.
  function EndOf(log: seq<Entry>, q: Query): string {
    if q.since > 0 && LeastAt(log, q.since).Some? then LeastAt(log, q.since).value.key else ""
  }

  // Where the `since` cut is exact.
  ghost predicate SinceReady(log: seq<Entry>, q: Query) {
    q.since > 0 ==> SameWidth(log, q.since) && InTimeOrder(log) && NoneMissed(log, q.since)
  }

  // The rows are the receipts of the entries, newest first, from the skip-th on; a positive limit cuts them.
  ghost predicate Lists(rows: seq<Row>, entries: seq<Entry>, skip: nat, limit: int, named: bool) {
    var left := if skip < |entries| then |entries| - skip else 0;
    && |rows| == (if 0 < limit < left then limit else left)
    && forall i :: 0 <= i < |rows| ==>
         var e := entries[left - 1 - i]; rows[i] == Row(if named then Some(e.key) else None, e.receipt)
  }

  lemma RecordOf(log: seq<Entry>, e: Entry)
    requires LogOk(log) && e in log && e.InRecord()
    ensures Lookup(log, e.key) == Some(Doc(e.receipt))
  {
    var m :| 0 <= m < |log| && log[m] == e;
    assert KeyOk(log[m].key);
    Records(log, e.key);
  }

  lemma KeyAt(log: seq<Entry>, f: Entry -> bool, i: nat)
    requires LogOk(log) && (forall e :: f(e) ==> e.InRecord()) && i < |Matching(log, f)|
    ensures i < |KeysOf(log, f)| && KeysOf(log, f)[i] == Matching(log, f)[i].key
    ensures Lookup(log, KeysOf(log, f)[i]) == Some(Doc(Matching(log, f)[i].receipt))
  {
    KeysOfMatching(log, f);
    RecordOf(log, Matching(log, f)[i]);
  }

  lemma EntryAt(log: seq<Entry>, f: Entry -> bool, skip: nat, limit: int, j: nat)
    requires LogOk(log) && forall e :: f(e) ==> e.InRecord()
    requires j < |Limit(Drop(Reverse(KeysOf(log, f)), skip), limit)|
    ensures skip + j < |Matching(log, f)|
    ensures var e, k := Matching(log, f)[|Matching(log, f)| - 1 - (skip + j)],
                        Limit(Drop(Reverse(KeysOf(log, f)), skip), limit)[j];
            e.key == k && Lookup(log, k) == Some(Doc(e.receipt))
  {
    KeysOfMatching(log, f);
    CutAt(KeysOf(log, f), skip, limit, j);
    KeyAt(log, f, |Matching(log, f)| - 1 - (skip + j));
  }

  // The keys of a page lead to records.
  lemma PageRows(log: seq<Entry>, f: Entry -> bool, skip: nat, limit: int, named: bool)
    requires LogOk(log) && forall e :: f(e) ==> e.InRecord()
    ensures var cut := Limit(Drop(Reverse(KeysOf(log, f)), skip), limit);
            && |Rows(log, cut, named)| == |cut|
            && forall j :: 0 <= j < |cut| ==>
                 && Lookup(log, cut[j]).Some? && Lookup(log, cut[j]).value.Doc?
                 && Rows(log, cut, named)[j] ==
                    Row(if named then Some(cut[j]) else None, Lookup(log, cut[j]).value.receipt)
  {
    var cut := Limit(Drop(Reverse(KeysOf(log, f)), skip), limit);
    forall j | 0 <= j < |cut| ensures Lookup(log, cut[j]).Some? && Lookup(log, cut[j]).value.Doc? {
      EntryAt(log, f, skip, limit, j);
    }
    RowsAt(log, cut, named);
  }

  lemma RowIs(log: seq<Entry>, f: Entry -> bool, skip: nat, limit: int, named: bool, j: nat)
    requires LogOk(log) && forall e :: f(e) ==> e.InRecord()
    requires j < |Limit(Drop(Reverse(KeysOf(log, f)), skip), limit)|
    ensures skip + j < |Matching(log, f)|
    ensures var rows := Rows(log, Limit(Drop(Reverse(KeysOf(log, f)), skip), limit), named);
            var e := Matching(log, f)[|Matching(log, f)| - 1 - (skip + j)];
            j < |rows| && rows[j] == Row(if named then Some(e.key) else None, e.receipt)
  {
    PageRows(log, f, skip, limit, named);
    EntryAt(log, f, skip, limit, j);
  }

  lemma RowsList(log: seq<Entry>, f: Entry -> bool, skip: nat, limit: int, named: bool)
    requires LogOk(log) && forall e :: f(e) ==> e.InRecord()
    ensures Lists(Rows(log, Limit(Drop(Reverse(KeysOf(log, f)), skip), limit), named), Matching(log, f), skip, limit,
                  named)
  {
    var cut := Limit(Drop(Reverse(KeysOf(log, f)), skip), limit);
    var rows, entries := Rows(log, cut, named), Matching(log, f);
    assert |entries| == |KeysOf(log, f)| by { KeysOfMatching(log, f); }
    assert |rows| == |cut| by { PageRows(log, f, skip, limit, named); }
    CutSize(KeysOf(log, f), skip, limit);
    forall j | 0 <= j < |rows|
      ensures skip + j < |entries|
      ensures var e := entries[|entries| - 1 - (skip + j)];
              rows[j] == Row(if named then Some(e.key) else None, e.receipt)
    {
      RowIs(log, f, skip, limit, named, j);
    }
    ListsAll(rows, entries, skip, limit, named);
  }

  lemma ListsAll(rows: seq<Row>, entries: seq<Entry>, skip: nat, limit: int, named: bool)
    requires var left := if skip < |entries| then |entries| - skip else 0;
             |rows| == if 0 < limit < left then limit else left
    requires forall j :: 0 <= j < |rows| ==>
               && skip + j < |entries|
               && var e := entries[|entries| - 1 - (skip + j)];
                  rows[j] == Row(if named then Some(e.key) else None, e.receipt)
    ensures Lists(rows, entries, skip, limit, named)
  {
  }

  // A filtered query answers what testing every entry would, newest first and cut to the limit, whenever its
  // scans reach the newest match.
  lemma FilteredQueryIsExact(log: seq<Entry>, keys: seq<string>, defaultLimit: int, q: Query)
    requires LogOk(log) && IdsOk(q) && Filtered(q) && SinceReady(log, q)
    requires NewestSeen(log, q, EndOf(log, q), if q.limit == 0 then defaultLimit else q.limit)
    ensures Lists(Answer(log, keys, defaultLimit, q), Matching(log, Qualifying(log, q)), 0,
                  if q.limit == 0 then defaultLimit else q.limit, false)
  {
    FilteredRows(log, keys, defaultLimit, q);
    RowsList(log, Qualifying(log, q), 0, LimitOf(q, defaultLimit), false);
    assert Drop(Reverse(KeysOf(log, Qualifying(log, q))), 0) == Reverse(KeysOf(log, Qualifying(log, q)));
  }

  // In particular whenever sender and recipient have no more indexed receipts than the limit.
  lemma FewHitsAreAll(log: seq<Entry>, keys: seq<string>, defaultLimit: int, q: Query, limit: nat)
    requires LogOk(log) && IdsOk(q) && Filtered(q) && SinceReady(log, q)
    requires limit == (if q.limit == 0 then defaultLimit else q.limit) && limit >= 1
    requires q.from != "" ==> |Matching(log, SentFrom(q.from))| <= limit
    requires q.to != "" ==> |Matching(log, SentTo(q.to))| <= limit
    ensures Lists(Answer(log, keys, defaultLimit, q), Matching(log, Qualifying(log, q)), 0, limit, false)
  {
    var matches := KeysOf(log, Meeting(log, q, EndOf(log, q)));
    if matches != [] {
      FewerMatching(log, SentFrom(q.from), matches[|matches| - 1]);
      FewerMatching(log, SentTo(q.to), matches[|matches| - 1]);
    }
    FilteredQueryIsExact(log, keys, defaultLimit, q);
  }

  lemma {:induction false} FewerMatching(log: seq<Entry>, f: Entry -> bool, k: string)
    ensures |Matching(log, UpToKey(f, k))| <= |Matching(log, f)|
  {
    if log == [] {
    } else {
      FewerMatching(log[..|log| - 1], f, k);
    }
  }

  lemma FilteredRows(log: seq<Entry>, keys: seq<string>, defaultLimit: int, q: Query)
    requires LogOk(log) && IdsOk(q) && Filtered(q) && SinceReady(log, q)
    requires NewestSeen(log, q, EndOf(log, q), LimitOf(q, defaultLimit))
    ensures Answer(log, keys, defaultLimit, q) ==
            Rows(log, Limit(Reverse(KeysOf(log, Qualifying(log, q))), LimitOf(q, defaultLimit)), false)
  {
    if q.since > 0 { SinceCutAll(log, q.since); }
    if q.since > 0 && LeastAt(log, q.since).None? {
      NoneQualify(log, q);
    } else {
      FilteredIsScanExactly(log, q, EndOf(log, q), LimitOf(q, defaultLimit));
      EndQualifies(log, q);
    }
  }

  // What passes the tests from the end point on is what qualifies.
  lemma EndQualifies(log: seq<Entry>, q: Query)
    requires LogOk(log) && (q.since > 0 ==> LeastAt(log, q.since).Some? && CutExact(log, q.since))
    ensures KeysOf(log, Meeting(log, q, EndOf(log, q))) == KeysOf(log, Qualifying(log, q))
  {
    if q.since > 0 {
      EndIsKey(log, q.since);
      SinceQualifies(log, q);
    } else {
      KeysOfSame(log, Meeting(log, q, ""), Qualifying(log, q));
    }
  }

  lemma NoneQualify(log: seq<Entry>, q: Query)
    requires q.since > 0 && LeastAt(log, q.since).None? && CutExact(log, q.since)
    ensures KeysOf(log, Qualifying(log, q)) == []
  {
    forall i | 0 <= i < |log| ensures !Qualifying(log, q)(log[i]) { assert RightSide(log, q.since, i); }
    KeysOfNone(log, Qualifying(log, q));
  }

  lemma SinceQualifies(log: seq<Entry>, q: Query)
    requires q.since > 0 && LeastAt(log, q.since).Some? && CutExact(log, q.since)
    requires LeastAt(log, q.since).value.key != ""
    ensures KeysOf(log, Meeting(log, q, LeastAt(log, q.since).value.key)) == KeysOf(log, Qualifying(log, q))
  {
    var end := LeastAt(log, q.since).value.key;
    forall i | 0 <= i < |log| ensures Meeting(log, q, end)(log[i]) == Qualifying(log, q)(log[i]) {
      assert RightSide(log, q.since, i);
    }
    KeysOfSame(log, Meeting(log, q, end), Qualifying(log, q));
  }

  lemma EndIsKey(log: seq<Entry>, since: nat)
    requires LogOk(log) && LeastAt(log, since).Some?
    ensures LeastAt(log, since).value.key != ""
  {
    LeastAtMeans(log, since);
  }
}
