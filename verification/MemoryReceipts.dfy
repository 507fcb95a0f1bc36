/** internal/rest/receipt/memdb.go: the newest receipts in a list, and how its answers compare with
    those of the LevelDB store. */
module MemoryReceiptStore {
  import opened Options
  import opened Lex
  import opened KVStores
  import opened KeySeqs
  import opened ReceiptLog
  import opened ReceiptQuery
  import opened ReceiptScans
  import opened ReceiptPaging

  datatype Stored = Stored(id: string, receipt: Receipt)

  // MaxDocs below one still keeps the latest receipt.
  function Capacity(maxDocs: int): nat { if maxDocs < 1 then 1 else maxDocs }

  class MemoryReceipts {
    const maxDocs: int
    var receipts: seq<Stored>
    ghost var history: seq<Stored>

    ghost predicate Valid()
      reads this
    {
      receipts == Take(Reverse(history), Capacity(maxDocs))
    }

    constructor (maxDocs: int)
      ensures Valid() && history == [] && this.maxDocs == maxDocs
    {
      this.maxDocs := maxDocs;
      receipts, history := [], [];
    }

    method AddReceipt(receipt: Stored)
      requires Valid()
      modifies this
      ensures Valid() && history == old(history) + [receipt]
      ensures var most := if maxDocs < 1 then 1 else maxDocs;
              && |receipts| == (if |history| < most then |history| else most)
              && forall i :: 0 <= i < |receipts| ==> receipts[i] == history[|history| - 1 - i]
    {
      SlideWindow(history, receipt, maxDocs);
      var curLen := |receipts|;
      if curLen > 0 && curLen >= maxDocs {
        receipts := receipts[..curLen - 1];
      }
      receipts := [receipt] + receipts;
      history := history + [receipt];
    }

    // None is the error for filters this store does not support.
    method GetReceipts(q: Query, limit: nat) returns (results: Option<seq<Stored>>)
      ensures results.None? <==> q.ids != [] || q.since != 0 || q.from != "" || q.to != ""
      ensures results.Some? ==> results.value == Take(Drop(receipts, NoLess0(q.skip)), limit)
      ensures results.Some? ==>
                var skip := if q.skip < 0 then 0 else q.skip;
                var left := if skip < |receipts| then |receipts| - skip else 0;
                && |results.value| == (if limit < left then limit else left)
                && forall i :: 0 <= i < |results.value| ==> results.value[i] == receipts[skip + i]
    {
      if |q.ids| > 0 || q.since != 0 || q.from != "" || q.to != "" {
        return None;
      }
      var cur, i := 0, 0;
      while i < q.skip && cur < |receipts|
        invariant 0 <= i == cur <= |receipts| && i <= NoLess0(q.skip)
      {
        cur, i := cur + 1, i + 1;
      }
      var page: seq<Stored> := [];
      i := 0;
      while i < limit && cur < |receipts|
        invariant 0 <= i <= limit && i <= cur <= |receipts| && page == receipts[cur - i..cur]
        invariant if NoLess0(q.skip) <= |receipts| then cur - i == NoLess0(q.skip) else i == 0 && cur == |receipts|
      {
        assert receipts[cur - i..cur] + [receipts[cur]] == receipts[cur - i..cur + 1];
        page := page + [receipts[cur]];
        cur, i := cur + 1, i + 1;
      }
      PageIsSlice(receipts, NoLess0(q.skip), limit, cur, i);
      return Some(page);
    }

    // The newest of the kept receipts with that ID.
    method GetReceipt(requestID: string) returns (result: Option<Stored>)
      ensures result.None? <==> forall i :: 0 <= i < |receipts| ==> receipts[i].id != requestID
      ensures result.Some? ==>
                exists i :: 0 <= i < |receipts| && receipts[i] == result.value && result.value.id == requestID
                            && forall j :: 0 <= j < i ==> receipts[j].id != requestID
    {
      var cur := 0;
      while cur < |receipts|
        invariant 0 <= cur <= |receipts| && forall j :: 0 <= j < cur ==> receipts[j].id != requestID
      {
        if receipts[cur].id == requestID {
          return Some(receipts[cur]);
        }
        cur := cur + 1;
      }
      return None;
    }
  }

  lemma PageIsSlice(all: seq<Stored>, skip: nat, limit: nat, cur: nat, i: nat)
    requires i <= cur <= |all| && i <= limit && (i == limit || cur == |all|)
    requires if skip <= |all| then cur - i == skip else i == 0 && cur == |all|
    ensures all[cur - i..cur] == Take(Drop(all, skip), limit)
  {
  }

  lemma SlideWindow(history: seq<Stored>, receipt: Stored, maxDocs: int)
    ensures var kept := Take(Reverse(history), Capacity(maxDocs));
            Take(Reverse(history + [receipt]), Capacity(maxDocs)) ==
            [receipt] + if |kept| > 0 && |kept| >= maxDocs then kept[..|kept| - 1] else kept
  {
    assert (history + [receipt])[..|history|] == history;
    assert Reverse(history + [receipt]) == [receipt] + Reverse(history);
  }

  // --- the two stores side by side ---

  // Both were given the same receipts, and no LevelDB write failed.
  ghost predicate SameReceipts(log: seq<Entry>, history: seq<Stored>) {
    && |log| == |history|
    && forall i :: 0 <= i < |log| ==> log[i].InId() && history[i] == Stored(log[i].requestId, log[i].receipt)
  }

  lemma {:induction false} AllRecorded(log: seq<Entry>)
    requires forall i :: 0 <= i < |log| ==> log[i].InRecord()
    ensures |KeysOf(log, Recorded())| == |log|
    ensures forall i :: 0 <= i < |log| ==> KeysOf(log, Recorded())[i] == log[i].key
  {
    if log == [] {
    } else {
      AllRecorded(log[..|log| - 1]);
    }
  }

  // Newest first, from the skip-th on.
  function PageOf<T>(s: seq<T>, skip: nat, limit: nat): seq<T> {
    Take(Drop(Reverse(s), skip), limit)
  }

  lemma PageOfLog(log: seq<Entry>, keys: seq<string>, vals: map<string, Value>, skip: nat, limit: nat)
    requires LogOk(log) && Represents(log, keys, vals) && limit > 0
    ensures Answer(log, keys, 0, Query(skip, limit, [], 0, "", "", "")) ==
              Rows(log, PageOf(KeysOf(log, Recorded()), skip, limit), true)
  {
    RecordsComeLast(log, keys, vals);
    KeepAll(keys, NotBefore(""));
  }

  // A key of the log's page leads to the receipt at the same place in the other page.
  lemma SameRow(log: seq<Entry>, history: seq<Stored>, i: nat)
    requires LogOk(log) && SameReceipts(log, history) && i < |log|
    ensures |KeysOf(log, Recorded())| == |history|
    ensures Lookup(log, KeysOf(log, Recorded())[i]) == Some(Doc(history[i].receipt))
  {
    AllRecorded(log);
    assert KeyOk(log[i].key);
    Records(log, log[i].key);
  }

  // What holds of two sequences place by place holds of their pages.
  ghost predicate Related<A, B>(s: seq<A>, t: seq<B>, r: (A, B) -> bool) {
    |s| == |t| && forall i :: 0 <= i < |s| ==> r(s[i], t[i])
  }

  lemma RelatedReverse<A, B>(s: seq<A>, t: seq<B>, r: (A, B) -> bool)
    requires Related(s, t, r)
    ensures Related(Reverse(s), Reverse(t), r)
  {
  }

  lemma RelatedCut<A, B>(s: seq<A>, t: seq<B>, r: (A, B) -> bool, n: nat)
    requires Related(s, t, r)
    ensures Related(Drop(s, n), Drop(t, n), r) && Related(Take(s, n), Take(t, n), r)
  {
  }

  lemma RelatedPages<A, B>(s: seq<A>, t: seq<B>, r: (A, B) -> bool, skip: nat, limit: nat)
    requires Related(s, t, r)
    ensures Related(PageOf(s, skip, limit), PageOf(t, skip, limit), r)
  {
    RelatedReverse(s, t, r);
    RelatedCut(Reverse(s), Reverse(t), r, skip);
    RelatedCut(Drop(Reverse(s), skip), Drop(Reverse(t), skip), r, limit);
  }

  predicate LeadsTo(log: seq<Entry>, k: string, doc: Stored) { Lookup(log, k) == Some(Doc(doc.receipt)) }

  function Leading(log: seq<Entry>): (string, Stored) -> bool { (k: string, doc: Stored) => LeadsTo(log, k, doc) }

  lemma SameDocs(log: seq<Entry>, page: seq<string>, docs: seq<Stored>)
    requires |page| == |docs| && forall j :: 0 <= j < |page| ==> LeadsTo(log, page[j], docs[j])
    ensures |Rows(log, page, true)| == |docs|
    ensures forall j :: 0 <= j < |docs| ==> Rows(log, page, true)[j].receipt == docs[j].receipt
  {
    RowsAt(log, page, true);
  }

  // Both stores answer an unfiltered page with the same receipts.
  ghost predicate PagesAlike(log: seq<Entry>, keys: seq<string>, receipts: seq<Stored>, skip: nat, limit: nat) {
    var rows, docs := Answer(log, keys, 0, Query(skip, limit, [], 0, "", "", "")), Take(Drop(receipts, skip), limit);
    |rows| == |docs| && forall j :: 0 <= j < |docs| ==> rows[j].receipt == docs[j].receipt
  }

  lemma WholeHistoryAlike(log: seq<Entry>, keys: seq<string>, vals: map<string, Value>, history: seq<Stored>, skip: nat,
                          limit: nat)
    requires LogOk(log) && Represents(log, keys, vals) && SameReceipts(log, history) && limit > 0
    ensures PagesAlike(log, keys, Reverse(history), skip, limit)
  {
    var all := KeysOf(log, Recorded());
    AllRecorded(log);
    forall i | 0 <= i < |log| ensures LeadsTo(log, all[i], history[i]) {
      SameRow(log, history, i);
    }
    forall i | 0 <= i < |all| ensures Leading(log)(all[i], history[i]) { assert LeadsTo(log, all[i], history[i]); }
    RelatedPages(all, history, Leading(log), skip, limit);
    SameDocs(log, PageOf(all, skip, limit), PageOf(history, skip, limit));
    PageOfLog(log, keys, vals, skip, limit);
  }

  // The two stores answer every unfiltered page alike if and only if the memory store has dropped nothing.
  lemma StoresAgreeExactly(log: seq<Entry>, keys: seq<string>, vals: map<string, Value>, history: seq<Stored>,
                           receipts: seq<Stored>, maxDocs: int)
    requires LogOk(log) && Represents(log, keys, vals) && SameReceipts(log, history)
    requires receipts == Take(Reverse(history), Capacity(maxDocs))
    ensures (forall skip: nat, limit: nat :: limit > 0 ==> PagesAlike(log, keys, receipts, skip, limit))
            <==> |history| <= if maxDocs < 1 then 1 else maxDocs
  {
    if |history| <= Capacity(maxDocs) {
      forall skip: nat, limit: nat | limit > 0 ensures PagesAlike(log, keys, receipts, skip, limit) {
        WholeHistoryAlike(log, keys, vals, history, skip, limit);
      }
    } else {
      WholeHistoryAlike(log, keys, vals, history, 0, |history|);
      assert !PagesAlike(log, keys, receipts, 0, |history|);
    }
  }
}
