/** What the receipt store holds after any sequence of AddReceipt calls, each possibly cut short by a
    failing write: a log of entries, and the key-value pairs each one left behind. */
module ReceiptLog {
  import opened Options
  import opened Lex
  import opened KVStores
  import opened KeySeqs

  // `body` stands for the fields no index is built on.
  datatype Receipt = Receipt(from: Option<string>, to: Option<string>, receivedAt: nat, body: string)

  // Stored bytes: a receipt's JSON, or the lookup key an index entry points at.
  datatype Value = Doc(receipt: Receipt) | Ref(key: string)

  // "%s" of a missing field
  function FromText(r: Receipt): string {
    if r.from.Some? then r.from.value else "%!s(<nil>)"
  }

  // The sender a search for `a` looks for: `a` itself or, when that is the text of a missing field, none.
  predicate SenderIs(r: Receipt, a: string) { r.from == Some(a) || (r.from.None? && a == "%!s(<nil>)") }

  lemma SenderText(r: Receipt, a: string)
    ensures FromText(r) == a <==> SenderIs(r, a)
    ensures a + ":" <= FromText(r) ==> r.from.Some? && a + ":" <= r.from.value
  {
    var text := FromText(r);
    if a + ":" <= text {
      assert text[|a|] == (a + ":")[|a|] == ':';
    }
  }

  predicate HasTo(r: Receipt) {
    r.to.Some? && r.to.value != ""
  }

  // One AddReceipt call and how many of its writes went through.
  datatype Entry = Entry(key: string, requestId: string, receipt: Receipt, puts: nat) {
    predicate InRecord() { puts >= 1 }
    predicate InFrom() { puts >= 2 }
    predicate InTo() { HasTo(receipt) && puts >= 3 }
    predicate InAt() { puts >= if HasTo(receipt) then 4 else 3 }
    predicate InId() { puts >= if HasTo(receipt) then 5 else 4 }

    function FromKey(): string { "from:" + FromText(receipt) + ":" + key }
    function ToKey(): string requires HasTo(receipt) { "to:" + receipt.to.value + ":" + key }
    function AtKey(): string { "receivedAt:" + Decimal(receipt.receivedAt) + ":" + key }

    // What the writes that went through left under `k`; the later one wins.
    function Written(k: string): Option<Value> {
      if InId() && k == requestId then Some(Ref(key))
      else if InAt() && k == AtKey() then Some(Ref(key))
      else if InTo() && k == ToKey() then Some(Ref(key))
      else if InFrom() && k == FromKey() then Some(Ref(key))
      else if InRecord() && k == key then Some(Doc(receipt))
      else None
    }
  }

  function Lookup(log: seq<Entry>, k: string): Option<Value> {
    if log == [] then None else
      var w := log[|log| - 1].Written(k);
      if w.Some? then w else Lookup(log[..|log| - 1], k)
  }

  lemma {:induction false} LookupFinds(log: seq<Entry>, k: string)
    ensures Lookup(log, k).Some? ==>
              exists i :: 0 <= i < |log| && log[i].Written(k) == Lookup(log, k)
                          && forall j :: i < j < |log| ==> log[j].Written(k).None?
    ensures Lookup(log, k).None? ==> forall i :: 0 <= i < |log| ==> log[i].Written(k).None?
  {
    if log == [] || !log[|log| - 1].Written(k).None? {
    } else {
      var n := |log| - 1;
      LookupFinds(log[..n], k);
      if Lookup(log[..n], k).Some? {
        var i :| 0 <= i < n && log[..n][i].Written(k) == Lookup(log[..n], k)
                 && forall j :: i < j < n ==> log[..n][j].Written(k).None?;
        assert log[i].Written(k) == Lookup(log, k);
        assert forall j :: i < j < n ==> log[j] == log[..n][j];
      } else {
        assert forall j :: 0 <= j < n ==> log[j] == log[..n][j];
      }
    }
  }

  // --- the shape of keys ---

  // strings.HasPrefix(k, "z")
  predicate IsRecordKey(k: string) { k != "" && k[0] == 'z' }

  // Generated "z<ULID>" keys.
  predicate KeyOk(k: string) { IsRecordKey(k) && ':' !in k }

  // strings.HasPrefix(k, ...) for the three indexes
  predicate IsIndexKey(k: string) { "from:" <= k || "to:" <= k || "receivedAt:" <= k }

  // A request ID, chosen by the client, that is no index key and comes before every record.
  predicate RequestIdOk(id: string) { id != "" && id[0] < 'z' && !IsIndexKey(id) }

  // Keys are well formed and, being monotonic, ascend in insertion order.
  ghost predicate LogOk(log: seq<Entry>) {
    && (forall i :: 0 <= i < |log| ==> KeyOk(log[i].key) && RequestIdOk(log[i].requestId))
    && (forall i, j :: 0 <= i < j < |log| ==> Less(log[i].key, log[j].key))
  }

  // No stored sender, or recipient, continues the address after a colon, the separator of the index keys.
  ghost predicate FromApart(log: seq<Entry>, a: string) {
    forall i :: 0 <= i < |log| && log[i].receipt.from.Some? ==> !(a + ":" <= log[i].receipt.from.value)
  }

  ghost predicate ToApart(log: seq<Entry>, a: string) {
    forall i :: 0 <= i < |log| && log[i].receipt.to.Some? ==> !(a + ":" <= log[i].receipt.to.value)
  }

  // The families of keys do not overlap.
  lemma WrittenByShape(e: Entry, k: string)
    requires KeyOk(e.key) && RequestIdOk(e.requestId)
    ensures IsRecordKey(k) ==> e.Written(k) == if e.InRecord() && k == e.key then Some(Doc(e.receipt)) else None
    ensures "from:" <= k ==> e.Written(k) == if e.InFrom() && k == e.FromKey() then Some(Ref(e.key)) else None
    ensures "to:" <= k ==> e.Written(k) == if e.InTo() && k == e.ToKey() then Some(Ref(e.key)) else None
    ensures "receivedAt:" <= k ==> e.Written(k) == if e.InAt() && k == e.AtKey() then Some(Ref(e.key)) else None
    ensures RequestIdOk(k) ==> e.Written(k) == if e.InId() && k == e.requestId then Some(Ref(e.key)) else None
  {
    assert "from:" <= k ==> k[0] == 'f' && k[4] == ':';
    assert "to:" <= k ==> k[0] == 't' && k[2] == ':';
    assert "receivedAt:" <= k ==> k[0] == 'r' && k[10] == ':';
    assert e.FromKey()[0] == 'f' && e.FromKey()[4] == ':';
    assert HasTo(e.receipt) ==> e.ToKey()[0] == 't' && e.ToKey()[2] == ':';
    assert e.AtKey()[0] == 'r' && e.AtKey()[10] == ':';
  }

  lemma Records(log: seq<Entry>, k: string)
    requires LogOk(log) && IsRecordKey(k)
    ensures Lookup(log, k).Some? <==> exists i :: 0 <= i < |log| && log[i].InRecord() && log[i].key == k
    ensures forall i :: 0 <= i < |log| && log[i].InRecord() && log[i].key == k ==>
              Lookup(log, k) == Some(Doc(log[i].receipt))
  {
    LookupFinds(log, k);
    forall i | 0 <= i < |log|
      ensures log[i].Written(k) == if log[i].InRecord() && k == log[i].key then Some(Doc(log[i].receipt)) else None
    {
      WrittenByShape(log[i], k);
    }
    forall i, j | 0 <= i < j < |log| ensures log[i].key != log[j].key {
      Asymmetric(log[i].key, log[j].key);
    }
  }

  // The lookup key stored under a request ID is that of its latest completed add.
  lemma RequestIds(log: seq<Entry>, id: string)
    requires LogOk(log) && RequestIdOk(id)
    ensures Lookup(log, id).Some? <==> exists i :: 0 <= i < |log| && log[i].InId() && log[i].requestId == id
    ensures Lookup(log, id).Some? ==>
              exists i ::
                  0 <= i < |log| && log[i].InId() && log[i].requestId == id && Lookup(log, id) == Some(Ref(log[i].key))
                          && forall j :: i < j < |log| ==> !(log[j].InId() && log[j].requestId == id)
  {
    LookupFinds(log, id);
    forall i | 0 <= i < |log|
      ensures log[i].Written(id) == if log[i].InId() && id == log[i].requestId then Some(Ref(log[i].key)) else None
    {
      WrittenByShape(log[i], id);
    }
  }

  // Which addresses a prefix search for `a` reaches: `a` itself, and any that continues it after a colon.
  lemma AddressPrefixExact(a: string, f: string, z: string)
    requires ':' !in z
    ensures a + ":" <= f + ":" + z <==> a == f || a + ":" <= f
  {
    var whole := f + ":" + z;
    assert |a| < |f| ==> whole[..|a| + 1] == f[..|a| + 1];
    assert |a| == |f| ==> whole[..|a| + 1] == f + ":";
    assert |f| < |a| < |whole| ==> whole[|a|] == z[|a| - |f| - 1];
    assert a + ":" <= whole ==> whole[..|a| + 1] == a + ":" && whole[|a|] == ':';
    assert a + ":" <= f ==> a + ":" == f[..|a| + 1];
    assert |f| == |a| ==> (a + ":" == f + ":" <==> a == f) by {
      assert |f| == |a| ==> (a + ":")[..|a|] == a && (f + ":")[..|a|] == f;
    }
  }

  lemma AddressPrefix(a: string, f: string, z: string, x: string)
    requires ':' !in z && !(a + ":" <= f)
    ensures a + ":" + x == f + ":" + z <==> a == f && x == z
  {
    AddressPrefixExact(a, f, z);
    assert a + ":" <= a + ":" + x;
    assert (a + ":" + x)[|a| + 1..] == x && (a + ":" + z)[|a| + 1..] == z;
  }

  lemma SamePrefix(p: string, a: string, b: string)
    ensures p + a == p + b <==> a == b
  {
    assert (p + a)[|p|..] == a && (p + b)[|p|..] == b;
  }

  lemma FromWritten(e: Entry, a: string, x: string)
    requires KeyOk(e.key) && RequestIdOk(e.requestId) && (e.receipt.from.Some? ==> !(a + ":" <= e.receipt.from.value))
    ensures e.Written("from:" + a + ":" + x) ==
            if e.InFrom() && SenderIs(e.receipt, a) && e.key == x then Some(Ref(x)) else None
  {
    var k, f := "from:" + a + ":" + x, FromText(e.receipt);
    SenderText(e.receipt, a);
    WrittenByShape(e, k);
    AddressPrefix(a, f, e.key, x);
    SamePrefix("from:", a + ":" + x, f + ":" + e.key);
    assert k == "from:" + (a + ":" + x) && e.FromKey() == "from:" + (f + ":" + e.key);
  }

  lemma FromEntries(log: seq<Entry>, a: string, x: string)
    requires LogOk(log) && FromApart(log, a)
    ensures var r := Lookup(log, "from:" + a + ":" + x);
            && (r.Some? <==>
                exists i :: 0 <= i < |log| && log[i].InFrom() && SenderIs(log[i].receipt, a) && log[i].key == x)
            && (r.Some? ==> r == Some(Ref(x)))
  {
    LookupFinds(log, "from:" + a + ":" + x);
    forall i | 0 <= i < |log|
      ensures log[i].Written("from:" + a + ":" + x) ==
              if log[i].InFrom() && SenderIs(log[i].receipt, a) && log[i].key == x then Some(Ref(x)) else None
    {
      FromWritten(log[i], a, x);
    }
  }

  lemma ToWritten(e: Entry, a: string, x: string)
    requires KeyOk(e.key) && RequestIdOk(e.requestId) && (e.receipt.to.Some? ==> !(a + ":" <= e.receipt.to.value))
    ensures e.Written("to:" + a + ":" + x) ==
            if e.InTo() && e.receipt.to == Some(a) && e.key == x then Some(Ref(x)) else None
  {
    var k := "to:" + a + ":" + x;
    WrittenByShape(e, k);
    if HasTo(e.receipt) {
      var f := e.receipt.to.value;
      AddressPrefix(a, f, e.key, x);
      SamePrefix("to:", a + ":" + x, f + ":" + e.key);
      assert k == "to:" + (a + ":" + x) && e.ToKey() == "to:" + (f + ":" + e.key);
    }
  }

  lemma ToEntries(log: seq<Entry>, a: string, x: string)
    requires LogOk(log) && ToApart(log, a)
    ensures var r := Lookup(log, "to:" + a + ":" + x);
            && (r.Some? <==>
                exists i :: 0 <= i < |log| && log[i].InTo() && log[i].receipt.to == Some(a) && log[i].key == x)
            && (r.Some? ==> r == Some(Ref(x)))
  {
    LookupFinds(log, "to:" + a + ":" + x);
    forall i | 0 <= i < |log|
      ensures log[i].Written("to:" + a + ":" + x) ==
              if log[i].InTo() && log[i].receipt.to == Some(a) && log[i].key == x then Some(Ref(x)) else None
    {
      ToWritten(log[i], a, x);
    }
  }

  lemma AtEntries(log: seq<Entry>, k: string)
    requires LogOk(log) && "receivedAt:" <= k
    ensures Lookup(log, k).Some? <==> exists i :: 0 <= i < |log| && log[i].InAt() && log[i].AtKey() == k
  {
    LookupFinds(log, k);
    forall i | 0 <= i < |log|
      ensures log[i].Written(k).Some? <==> log[i].InAt() && log[i].AtKey() == k
    {
      WrittenByShape(log[i], k);
    }
  }

  // --- what is read off the log ---

  // The entries that pass a test, oldest first.
  function Matching(log: seq<Entry>, f: Entry -> bool): seq<Entry> {
    if log == [] then [] else
      var n := |log| - 1;
      Matching(log[..n], f) + if f(log[n]) then [log[n]] else []
  }

  function KeysOf(log: seq<Entry>, f: Entry -> bool): seq<string> {
    if log == [] then [] else
      var n := |log| - 1;
      KeysOf(log[..n], f) + if f(log[n]) then [log[n].key] else []
  }

  lemma {:induction false} KeysOfMatching(log: seq<Entry>, f: Entry -> bool)
    ensures |Matching(log, f)| == |KeysOf(log, f)|
    ensures forall i :: 0 <= i < |Matching(log, f)| ==>
              Matching(log, f)[i].key == KeysOf(log, f)[i] && Matching(log, f)[i] in log && f(Matching(log, f)[i])
  {
    if log == [] {
    } else {
      KeysOfMatching(log[..|log| - 1], f);
    }
  }

  lemma {:induction false} KeepKeysOf(log: seq<Entry>, f: Entry -> bool, g: string -> bool, h: Entry -> bool)
    requires forall e :: h(e) == (f(e) && g(e.key))
    ensures Keep(KeysOf(log, f), g) == KeysOf(log, h)
  {
    if log == [] {
    } else {
      var n := |log| - 1;
      KeepKeysOf(log[..n], f, g, h);
      KeepConcat(KeysOf(log[..n], f), if f(log[n]) then [log[n].key] else [], g);
    }
  }

  lemma {:induction false} KeysOfMembers(log: seq<Entry>, f: Entry -> bool)
    ensures forall k :: k in KeysOf(log, f) <==> exists i :: 0 <= i < |log| && f(log[i]) && log[i].key == k
  {
    if log == [] {
    } else {
      var n := |log| - 1;
      KeysOfMembers(log[..n], f);
      forall k ensures k in KeysOf(log, f) <==> exists i :: 0 <= i < |log| && f(log[i]) && log[i].key == k {
        if i :| 0 <= i < |log| && f(log[i]) && log[i].key == k {
          assert i < n ==> log[..n][i] == log[i];
        }
      }
    }
  }

  lemma {:induction false} KeysOfAscending(log: seq<Entry>, f: Entry -> bool)
    requires LogOk(log)
    ensures Ascending(KeysOf(log, f))
  {
    if log == [] {
    } else {
      var n := |log| - 1;
      KeysOfAscending(log[..n], f);
      KeysOfMembers(log[..n], f);
      forall i | 0 <= i < |KeysOf(log[..n], f)| ensures Less(KeysOf(log[..n], f)[i], log[n].key) {
        assert KeysOf(log[..n], f)[i] in KeysOf(log[..n], f);
      }
    }
  }
}
