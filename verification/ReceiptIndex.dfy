/** What an index entry is worth, whatever writes failed before and after it: AddReceipt writes the
    record first and the request ID last, so an index never names a record that is not there. */
module ReceiptIndex {
  import opened Options
  import opened Lex
  import opened KVStores
  import opened ReceiptLog

  predicate OwnIndexKey(e: Entry, k: string) {
    k == e.requestId || k == e.AtKey() || k == e.FromKey() || (HasTo(e.receipt) && k == e.ToKey())
  }

  lemma IndexNamesRecord(log: seq<Entry>, k: string, x: string)
    requires LogOk(log) && Lookup(log, k) == Some(Ref(x))
    ensures exists i ::
              0 <= i < |log| && log[i].key == x && OwnIndexKey(log[i], k) && Lookup(log, x) == Some(Doc(log[i].receipt))
  {
    LookupFinds(log, k);
    var i :| 0 <= i < |log| && log[i].Written(k) == Lookup(log, k);
    assert KeyOk(log[i].key);
    Records(log, x);
  }

  lemma NoLaterColon(u: string, z: string)
    requires ':' !in z
    ensures var s := u + ":" + z; s[|u|] == ':' && forall i :: |u| < i < |s| ==> s[i] != ':'
    ensures (u + ":" + z)[..|u|] == u && (u + ":" + z)[|u| + 1..] == z
  {
    var s := u + ":" + z;
    forall i | |u| < i < |s| ensures s[i] != ':' {
      assert s[i] == z[i - |u| - 1];
    }
  }

  lemma LastSegment(u: string, z: string, v: string, w: string)
    requires ':' !in z && ':' !in w
    ensures u + ":" + z == v + ":" + w ==> u == v && z == w
  {
    NoLaterColon(u, z);
    NoLaterColon(v, w);
  }

  // An index key says which entry it belongs to.
  lemma IndexKeyOwner(d: Entry, e: Entry, k: string)
    requires KeyOk(d.key) && KeyOk(e.key) && RequestIdOk(d.requestId) && RequestIdOk(e.requestId)
    requires k == e.FromKey() || k == e.AtKey() || (HasTo(e.receipt) && k == e.ToKey())
    ensures d.Written(k).Some? ==> d.key == e.key && d.Written(k) == Some(Ref(e.key))
  {
    WrittenByShape(d, k);
    if k == e.FromKey() {
      assert "from:" <= k;
      if k == d.FromKey() { LastSegment("from:" + FromText(d.receipt), d.key, "from:" + FromText(e.receipt), e.key); }
    } else if k == e.AtKey() {
      assert "receivedAt:" <= k;
      if k == d.AtKey() {
        LastSegment("receivedAt:" + Decimal(d.receipt.receivedAt), d.key,
            "receivedAt:" + Decimal(e.receipt.receivedAt), e.key);
      }
    } else {
      assert "to:" <= k;
      if HasTo(d.receipt) && k == d.ToKey() {
        LastSegment("to:" + d.receipt.to.value, d.key, "to:" + e.receipt.to.value, e.key);
      }
    }
  }

  // What the writes of entry `i` put under an index key of its own stays there.
  lemma IndexEntryStays(log: seq<Entry>, i: nat, k: string)
    requires LogOk(log) && i < |log|
    requires k == log[i].FromKey() || k == log[i].AtKey() || (HasTo(log[i].receipt) && k == log[i].ToKey())
    requires log[i].Written(k).Some?
    ensures Lookup(log, k) == Some(Ref(log[i].key))
  {
    LookupFinds(log, k);
    if Lookup(log, k).Some? {
      var j :| 0 <= j < |log| && log[j].Written(k) == Lookup(log, k);
      IndexKeyOwner(log[j], log[i], k);
    }
  }

  lemma CompletedIsRecorded(log: seq<Entry>, i: nat)
    requires LogOk(log) && i < |log| && log[i].InId()
    ensures Lookup(log, log[i].key) == Some(Doc(log[i].receipt)) && Lookup(log, log[i].requestId).Some?
  {
    assert KeyOk(log[i].key);
    Records(log, log[i].key);
    RequestIds(log, log[i].requestId);
  }

  lemma WritesAll(e: Entry)
    requires e.InId()
    ensures e.Written(e.FromKey()).Some? && e.Written(e.AtKey()).Some?
    ensures HasTo(e.receipt) ==> e.Written(e.ToKey()).Some?
  {
  }

  // A receipt found by its request ID is in every index, under its own sender, recipient and time.
  lemma CompletedIsIndexed(log: seq<Entry>, i: nat)
    requires LogOk(log) && i < |log| && log[i].InId()
    ensures Lookup(log, log[i].key) == Some(Doc(log[i].receipt))
    ensures forall a :: log[i].receipt.from == Some(a) || (log[i].receipt.from.None? && a == "%!s(<nil>)") ==>
              Lookup(log, "from:" + a + ":" + log[i].key) == Some(Ref(log[i].key))
    ensures forall a :: log[i].receipt.to == Some(a) && a != "" ==>
              Lookup(log, "to:" + a + ":" + log[i].key) == Some(Ref(log[i].key))
    ensures Lookup(log, "receivedAt:" + Decimal(log[i].receipt.receivedAt) + ":" + log[i].key) == Some(Ref(log[i].key))
    ensures Lookup(log, log[i].requestId).Some?
  {
    CompletedIsRecorded(log, i);
    WritesAll(log[i]);
    IndexEntryStays(log, i, log[i].FromKey());
    forall a | SenderIs(log[i].receipt, a) ensures "from:" + a + ":" + log[i].key == log[i].FromKey() {
      SenderText(log[i].receipt, a);
    }
    IndexEntryStays(log, i, log[i].AtKey());
    if HasTo(log[i].receipt) { IndexEntryStays(log, i, log[i].ToKey()); }
  }

  // --- which request IDs leave the indexes intact ---

  // What a scan of each family relies on: records decode, index keys are those of entries, and records come last.
  ghost predicate Indexed(log: seq<Entry>, k: string)
    requires Lookup(log, k).Some?
  {
    && (IsRecordKey(k) ==> Lookup(log, k).value.Doc?)
    && ("from:" <= k ==> exists i :: 0 <= i < |log| && log[i].FromKey() == k)
    && ("to:" <= k ==> exists i :: 0 <= i < |log| && HasTo(log[i].receipt) && log[i].ToKey() == k)
    && ("receivedAt:" <= k ==> exists i :: 0 <= i < |log| && log[i].AtKey() == k)
  }

  ghost predicate Intact(log: seq<Entry>) {
    && (forall k :: Lookup(log, k).Some? ==> Indexed(log, k))
    && (forall k, r :: Lookup(log, k).Some? && Lookup(log, r).Some? && IsRecordKey(r) && !IsRecordKey(k) ==> Less(k, r))
  }

  lemma KeyOfFamily(log: seq<Entry>, k: string)
    requires LogOk(log) && Lookup(log, k).Some?
    ensures Indexed(log, k) && (!IsRecordKey(k) ==> k != "" && k[0] < 'z')
  {
    LookupFinds(log, k);
    var i :| 0 <= i < |log| && log[i].Written(k) == Lookup(log, k);
    WrittenByShape(log[i], k);
    assert log[i].FromKey()[0] == 'f' && log[i].AtKey()[0] == 'r';
    assert HasTo(log[i].receipt) ==> log[i].ToKey()[0] == 't';
  }

  lemma WellFormedIntact(log: seq<Entry>)
    requires LogOk(log)
    ensures Intact(log)
  {
    forall k | Lookup(log, k).Some?
      ensures Indexed(log, k) && (!IsRecordKey(k) ==> k != "" && k[0] < 'z')
    {
      KeyOfFamily(log, k);
    }
  }

  function Long(n: nat): (k: string)
    ensures KeyOk(k) && |k| == n + 1
  {
    if n == 0 then "z" else Long(n - 1) + "z"
  }

  // An entry under the ID whose own index keys are all longer than it.
  function LongEntry(id: string): Entry { Entry(Long(|id|), id, Receipt(None, None, 0, ""), 4) }

  lemma LongKeys(id: string)
    ensures |LongEntry(id).FromKey()| > |id| && |LongEntry(id).AtKey()| > |id| && !HasTo(LongEntry(id).receipt)
    ensures Lookup([LongEntry(id)], id) == Some(Ref(Long(|id|)))
    ensures Lookup([LongEntry(id)], Long(|id|)) == Some(Doc(LongEntry(id).receipt))
  {
    var e := LongEntry(id);
    assert [e][..0] == [];
    assert e.FromKey()[0] == 'f' && e.AtKey()[0] == 'r';
  }

  lemma BadIdBreaks(id: string)
    requires id != "" && !RequestIdOk(id)
    ensures !Intact([LongEntry(id)])
  {
    var e := LongEntry(id);
    LongKeys(id);
    if IsRecordKey(id) || IsIndexKey(id) {
      assert !Indexed([e], id);
    } else {
      assert !Less(id, e.key);
    }
  }

  // Whatever receipt is added under a request ID, the indexes stay intact if and only if the ID is no index key and
  // comes before every record.
  lemma RequestIdExactly(id: string)
    requires id != ""
    ensures (forall e: Entry :: KeyOk(e.key) && e.requestId == id && e.InId() ==> Intact([e])) <==> RequestIdOk(id)
  {
    if RequestIdOk(id) {
      forall e: Entry | KeyOk(e.key) && e.requestId == id && e.InId() ensures Intact([e]) { WellFormedIntact([e]); }
    } else {
      BadIdBreaks(id);
      var e := LongEntry(id);
      assert KeyOk(e.key) && e.requestId == id && e.InId();
    }
  }
}
