/** What each operation of the subscription manager changes, and that it leaves everything else alone. */
module RegistryEffects {
  import opened Options
  import opened Lex
  import opened Ledger
  import opened Registry
  import opened RegistryInvariants

  // --- one operation ---

  ghost predicate SameAt<V>(a: map<string, V>, b: map<string, V>, k: string) {
    (k in a <==> k in b) && (k in a ==> a[k] == b[k])
  }

  // Streams other than the one named are left alone.
  lemma OtherStreamsKept(cfg: Config, r: Registry, op: Op, k: string)
    requires !op.Restart?
    requires op.AddStream? || op.SetSuspended? || op.DeleteStream? ==> op.id != k
    ensures SameAt(r.streams, Apply(cfg, r, op).streams, k)
  {
  }

  // Subscriptions other than the one named, or those of the stream deleted, are left alone.
  lemma OtherSubsKept(cfg: Config, r: Registry, op: Op, k: string)
    requires !op.Restart?
    requires op.AddSubscription? || op.ResetSubscription? || op.DeleteSubscription? ==> op.id != k
    requires op.DeleteStream? && k in r.subs ==> r.subs[k].stream != op.id
    ensures SameAt(r.subs, Apply(cfg, r, op).subs, k)
  {
  }

  // The keys an operation may write or delete.
  function Touched(cfg: Config, r: Registry, op: Op): set<string> {
    match op
    case AddStream(_, id, _) => {id}
    case SetSuspended(id, _, _) => {id}
    case DeleteStream(id, drops, ok, cpOk) => DroppedKeys(cfg, r.subs, id, drops) + StreamKeys(id, ok, cpOk)
    case AddSubscription(sub, id, _) => {id, LookupKey(cfg, SubDefaults(sub, id))}
    case ResetSubscription(id, _, _) => if id in r.subs then {r.subs[id].id, LookupKey(cfg, r.subs[id])} else {}
    case DeleteSubscription(id, _) => if id in r.subs then {r.subs[id].id, LookupKey(cfg, r.subs[id])} else {}
    case StoreCheckpoint(id, _, ok) => if ok then {CheckpointKey(id)} else {}
    case Restart => {}
  }

  lemma UntouchedKept(cfg: Config, r: Registry, op: Op, k: string)
    requires k !in Touched(cfg, r, op)
    ensures SameAt(r.db, Apply(cfg, r, op).db, k)
  {
    if op.ResetSubscription? && op.id in r.subs {
      assert LookupKey(cfg, ResetTo(r.subs[op.id], op.fromBlock)) == LookupKey(cfg, r.subs[op.id]);
    }
  }

  // The same of their documents.
  lemma OtherDocsKept(cfg: Config, r: Registry, op: Op, k: string)
    requires MemoryOk(cfg, r.streams, r.subs) && (IsStreamId(k) || IsSubId(k))
    requires op.AddStream? || op.SetSuspended? || op.DeleteStream? ==> op.id != k
    requires op.AddSubscription? || op.ResetSubscription? || op.DeleteSubscription? ==> op.id != k
    requires op.DeleteStream? && k in r.subs ==> r.subs[k].stream != op.id
    ensures SameAt(r.db, Apply(cfg, r, op).db, k)
  {
    KeyFamilies(cfg);
    if op.DeleteStream? { DroppedFamilies(cfg, r, op.id, op.drops, k); }
    assert k !in Touched(cfg, r, op);
    UntouchedKept(cfg, r, op, k);
  }

  // What the named stream or subscription becomes.
  lemma TakesEffect(cfg: Config, r: Registry, op: Op)
    ensures var after := Apply(cfg, r, op);
            match op
            case AddStream(spec, id, ok) =>
              if CanStart(cfg, spec) then id in after.streams && after.streams[id] == StreamDefaults(spec.(id := id))
              else after == r
            case SetSuspended(id, value, ok) =>
              if id in r.streams
              then id in after.streams && after.streams[id] == r.streams[id].(suspended := Some(value)) else after == r
            case DeleteStream(id, drops, ok, cpOk) =>
              if id in r.streams then id !in after.streams && forall k :: k in after.subs ==> after.subs[k].stream != id
              else after == r
            case AddSubscription(sub, id, writes) =>
              if LookupKey(cfg, SubDefaults(sub, id)) !in r.db && sub.stream in r.streams
              then id in after.subs && after.subs[id] == SubDefaults(sub, id) else after == r
            case ResetSubscription(id, fromBlock, writes) =>
              if id in r.subs && ValidReset(fromBlock) then
                && id in after.subs
                && after.subs[id] == r.subs[id].(fromBlock := if fromBlock == "" then "newest" else fromBlock)
              else after == r
            case DeleteSubscription(id, deletes) => id !in after.subs
            case StoreCheckpoint(id, marks, ok) => after.streams == r.streams && after.subs == r.subs
            case Restart => after.db == r.db
  {
  }

  // --- where to start from ---

  predicate IsDigit(c: char) { '0' <= c <= '9' }

  lemma DigitValue(s: string, d: nat)
    requires d < 10
    ensures DecimalValue(s + [Digit(d)]) == DecimalValue(s) * 10 + d && IsDigit(Digit(d))
  {
    var t := s + [Digit(d)];
    assert t[..|t| - 1] == s && t[|t| - 1] == Digit(d);
  }

  lemma {:induction false} DecimalReads(n: nat)
    ensures DecimalValue(Decimal(n)) == n
  {
    if n < 10 {
      DigitValue("", n);
      assert [Digit(n)] == "" + [Digit(n)];
    } else {
      DecimalReads(n / 10);
      DigitValue(Decimal(n / 10), n % 10);
    }
  }

  lemma {:induction false} DecimalDigits(n: nat)
    ensures forall i :: 0 <= i < |Decimal(n)| ==> IsDigit(Decimal(n)[i])
  {
    if n < 10 {
      DigitValue("", n);
    } else {
      DecimalDigits(n / 10);
      DigitValue("", n % 10);
    }
  }

  // A reset takes every unsigned 64-bit number in decimal, and no larger one.
  lemma NumbersReset(n: nat)
    ensures ValidReset(Decimal(n)) <==> n <= 0xFFFF_FFFF_FFFF_FFFF
  {
    DecimalReads(n);
    DecimalDigits(n);
    assert forall i :: 0 <= i < |Decimal(n)| && IsDigit(Decimal(n)[i]) ==> '0' <= Decimal(n)[i] <= '9';
    assert "newest"[0] == 'n' && (Decimal(n) != "" ==> Decimal(n)[0] <= '9');
  }

  lemma OnlyDigitsReset(s: string, i: nat)
    requires i < |s| && !('0' <= s[i] <= '9')
    ensures ValidReset(s) <==> s == "newest"
  {
  }

  // --- checkpoints ---

  // The checkpoint last stored for a stream and not deleted with it.
  function LastStored(cfg: Config, ops: seq<Op>, id: string): Option<Marks> {
    if ops == [] then None else
      var n := |ops| - 1;
      match ops[n]
      case StoreCheckpoint(id', marks, ok) => if id' == id && ok then Some(marks) else LastStored(cfg, ops[..n], id)
      case DeleteStream(id', _, ok, cpOk) =>
        if id' == id && ok && cpOk && id in Run(cfg, ops[..n]).streams then None else LastStored(cfg, ops[..n], id)
      case _ => LastStored(cfg, ops[..n], id)
  }

  ghost predicate Holds(db: map<string, Stored>, id: string, marks: Option<Marks>) {
    if marks.Some? then "cp-" + id in db && db["cp-" + id] == Checkpoint(marks.value) else "cp-" + id !in db
  }

  lemma SameCheckpointKey(a: string, b: string)
    ensures CheckpointKey(a) == CheckpointKey(b) <==> a == b
  {
    assert CheckpointKey(a)[3..] == a && CheckpointKey(b)[3..] == b;
  }

  lemma CheckpointKept(cfg: Config, r: Registry, op: Op, id: string)
    requires MemoryOk(cfg, r.streams, r.subs) && FreshIds(r, op)
    requires op.StoreCheckpoint? ==> op.id != id || !op.ok
    requires op.DeleteStream? ==> op.id != id || !op.ok || !op.cpOk || id !in r.streams
    ensures SameAt(r.db, Apply(cfg, r, op).db, CheckpointKey(id))
  {
    if op.Restart? || ((op.DeleteStream? || op.SetSuspended?) && op.id !in r.streams) {
    } else {
      CheckpointUntouched(cfg, r, op, id);
      UntouchedKept(cfg, r, op, CheckpointKey(id));
    }
  }

  lemma CheckpointUntouched(cfg: Config, r: Registry, op: Op, id: string)
    requires MemoryOk(cfg, r.streams, r.subs) && FreshIds(r, op)
    requires op.StoreCheckpoint? ==> op.id != id || !op.ok
    requires op.DeleteStream? ==> op.id in r.streams && (op.id != id || !op.ok || !op.cpOk)
    requires op.SetSuspended? ==> op.id in r.streams
    ensures CheckpointKey(id) !in Touched(cfg, r, op)
  {
    var k := CheckpointKey(id);
    assert !IsSubId(k) && !IsStreamId(k) && !IsLookupKey(k) by { KeyFamilies(cfg); }
    match op
    case StoreCheckpoint(id', _, _) => SameCheckpointKey(id', id);
    case DeleteStream(id', drops, ok, cpOk) =>
      SameCheckpointKey(id', id);
      CheckpointNotDropped(cfg, r, id', drops, k);
    case _ => forall s ensures LookupKey(cfg, s) != k { KeyFamilies(cfg); }
  }

  lemma CheckpointNotDropped(cfg: Config, r: Registry, stream: string, drops: string -> nat, k: string)
    requires MemoryOk(cfg, r.streams, r.subs) && !IsSubId(k) && !IsLookupKey(k)
    ensures k !in DroppedKeys(cfg, r.subs, stream, drops)
  {
    KeyFamilies(cfg);
  }

  // Whatever fails and however often the process restarts, the database holds for each stream the checkpoint that
  // was last stored for it.
  lemma {:induction false} CheckpointRun(cfg: Config, ops: seq<Op>, id: string)
    requires FreshRun(cfg, ops)
    ensures Holds(Run(cfg, ops).db, id, LastStored(cfg, ops, id))
  {
    if ops == [] {
    } else {
      var n := |ops| - 1;
      FreshPrefix(cfg, ops);
      CheckpointRun(cfg, ops[..n], id);
      ReferentialIntegrity(cfg, ops[..n]);
      CheckpointAfter(cfg, ops, id);
    }
  }

  lemma CheckpointAfter(cfg: Config, ops: seq<Op>, id: string)
    requires ops != [] && FreshIds(Run(cfg, ops[..|ops| - 1]), ops[|ops| - 1])
    requires var r := Run(cfg, ops[..|ops| - 1]);
             MemoryOk(cfg, r.streams, r.subs) && Holds(r.db, id, LastStored(cfg, ops[..|ops| - 1], id))
    ensures Holds(Run(cfg, ops).db, id, LastStored(cfg, ops, id))
  {
    var n := |ops| - 1;
    var r, op := Run(cfg, ops[..n]), ops[n];
    if op.StoreCheckpoint? && op.id == id && op.ok {
      assert CheckpointKey(id) in Apply(cfg, r, op).db;
    } else if op.DeleteStream? && op.id == id && op.ok && op.cpOk && id in r.streams {
      assert CheckpointKey(id) in StreamKeys(id, true, true);
    } else {
      CheckpointKept(cfg, r, op, id);
    }
  }
}
