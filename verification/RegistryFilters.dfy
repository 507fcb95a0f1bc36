/** When a subscription is turned away as a duplicate, in terms of filters rather than of their keys. */
module RegistryFilters {
  import opened Options
  import opened Registry
  import opened RegistryInvariants
  import opened FilterKeys

  // --- every live subscription was let in by AddSubscription ---

  predicate LetIn(op: Op) { op.AddSubscription? ==> Admitted(op.sub) }

  ghost predicate AllArrive(subs: map<string, SubInfo>) { forall id :: id in subs ==> Arrives(subs[id]) }

  ghost predicate DocsArrive(db: map<string, Stored>) { forall k :: k in db && db[k].SubDoc? ==> Arrives(db[k].sub) }

  lemma ArriveStored(cfg: Config, db: map<string, Stored>, s: SubInfo, writes: nat)
    requires DocsArrive(db) && Arrives(s)
    ensures DocsArrive(StoreSub(cfg, db, s, writes))
  {
  }

  lemma ArriveAfter(cfg: Config, r: Registry, op: Op)
    requires AllArrive(r.subs) && DocsArrive(r.db) && LetIn(op)
    ensures AllArrive(Apply(cfg, r, op).subs) && DocsArrive(Apply(cfg, r, op).db)
  {
    match op
    case AddSubscription(sub, id, writes) =>
      AdmittedArrives(sub, id);
      ArriveStored(cfg, r.db, SubDefaults(sub, id), writes);
    case ResetSubscription(id, fromBlock, writes) =>
      if id in r.subs { ArriveStored(cfg, r.db, ResetTo(r.subs[id], fromBlock), writes); }
    case _ =>
  }

  lemma {:induction false} ArriveRun(cfg: Config, ops: seq<Op>)
    requires forall i :: 0 <= i < |ops| ==> LetIn(ops[i])
    ensures AllArrive(Run(cfg, ops).subs) && DocsArrive(Run(cfg, ops).db)
  {
    if ops == [] {
    } else {
      var n := |ops| - 1;
      ArriveRun(cfg, ops[..n]);
      ArriveAfter(cfg, Run(cfg, ops[..n]), ops[n]);
    }
  }

  // --- refusal ---

  // The hash gives `s` and the live subscriptions different values where their joined keys differ.
  ghost predicate HashesApart(cfg: Config, subs: map<string, SubInfo>, s: SubInfo) {
    forall id :: id in subs && cfg.hash(CompositeKey(subs[id])) == cfg.hash(CompositeKey(s)) ==>
        CompositeKey(subs[id]) == CompositeKey(s)
  }

  lemma SameLookup(cfg: Config, a: SubInfo, b: SubInfo)
    ensures LookupKey(cfg, a) == LookupKey(cfg, b) <==> cfg.hash(CompositeKey(a)) == cfg.hash(CompositeKey(b))
  {
    assert LookupKey(cfg, a)[8..] == cfg.hash(CompositeKey(a)) && LookupKey(cfg, b)[8..] == cfg.hash(CompositeKey(b));
  }

  // The filter is turned away exactly when a live subscription has it.
  ghost predicate RefusedRightly(cfg: Config, r: Registry, s: SubInfo) {
    LookupKey(cfg, s) in r.db <==> exists other :: other in r.subs && SameFilter(r.subs[other], s)
  }

  // The key of `s` tells it from every live filter: among filters that can arrive, or without dashes.
  ghost predicate Distinct(subs: map<string, SubInfo>, s: SubInfo) {
    || (Arrives(s) && !Shares(s) && AllArrive(subs))
    || (Plain(s) && forall id :: id in subs ==> Plain(subs[id]))
  }

  lemma DistinctKeys(subs: map<string, SubInfo>, s: SubInfo, id: string)
    requires Distinct(subs, s) && id in subs
    ensures CompositeKey(subs[id]) == CompositeKey(s) <==> SameFilter(subs[id], s)
  {
    if Plain(s) && Plain(subs[id]) {
      KeyTellsFilters(subs[id], s);
    } else {
      KeyIsOwnExactly(s);
    }
  }

  // As long as nothing fails, a subscription is turned away as a duplicate exactly when a live one has its filter.
  lemma RefusedIffSameFilter(cfg: Config, ops: seq<Op>, sub: SubInfo, id: string)
    requires FreshRun(cfg, ops) && forall i :: 0 <= i < |ops| ==> NothingFails(ops[i])
    requires Distinct(Run(cfg, ops).subs, SubDefaults(sub, id))
    requires HashesApart(cfg, Run(cfg, ops).subs, SubDefaults(sub, id))
    ensures RefusedRightly(cfg, Run(cfg, ops), SubDefaults(sub, id))
  {
    var subs, s := Run(cfg, ops).subs, SubDefaults(sub, id);
    RefusedIffTaken(cfg, ops, sub, id);
    forall other | other in subs
      ensures LookupKey(cfg, subs[other]) == LookupKey(cfg, s) <==> SameFilter(subs[other], s)
    {
      SameLookup(cfg, subs[other], s);
      DistinctKeys(subs, s, other);
    }
  }

  // --- exactly which filters are refused rightly ---

  // Nothing fails, and all subscriptions come through AddSubscription.
  ghost predicate Usual(cfg: Config, ops: seq<Op>) {
    FreshRun(cfg, ops) && forall i :: 0 <= i < |ops| ==> NothingFails(ops[i]) && LetIn(ops[i])
  }

  const A_STREAM := StreamInfo("", "", "webhook", None, 1, 1, "skip", 0, 1, None, None, None, 1)

  function Subscribed(b: SubInfo): seq<Op> {
    [AddStream(A_STREAM, "es-1", true), AddSubscription(b.(stream := "es-1"), "sb-1", 2)]
  }

  lemma FirstStream(cfg: Config)
    ensures var r := Run(cfg, [AddStream(A_STREAM, "es-1", true)]);
            r.streams.Keys == {"es-1"} && r.subs == map[] && r.db.Keys == {"es-1"}
  {
    var op := AddStream(A_STREAM, "es-1", true);
    assert [op][..0] == [];
    assert Lower("webhook") == "webhook";
    assert Run(cfg, [op]) == Apply(cfg, Run(cfg, []), op);
  }

  lemma OnlySubscription(cfg: Config, b: SubInfo)
    requires Arrives(b)
    ensures var r := Run(cfg, Subscribed(b));
            r.subs == map["sb-1" := SubDefaults(b.(stream := "es-1"), "sb-1")] && LookupKey(cfg, b) in r.db
  {
    var ops, s := Subscribed(b), SubDefaults(b.(stream := "es-1"), "sb-1");
    FirstStream(cfg);
    assert ops[..1] == [ops[0]];
    var r := Run(cfg, ops[..1]);
    assert Run(cfg, ops) == Apply(cfg, r, ops[1]);
    KeyFamilies(cfg);
    assert LookupKey(cfg, s) == LookupKey(cfg, b);
    assert LookupKey(cfg, s) !in r.db by { assert IsLookupKey(LookupKey(cfg, s)) && !IsLookupKey("es-1"); }
  }

  lemma SubscribedUsual(cfg: Config, b: SubInfo)
    requires Arrives(b)
    ensures Usual(cfg, Subscribed(b))
  {
    var ops := Subscribed(b);
    FirstStream(cfg);
    AdmittedArrives(b, "sb-1");
    assert ops[..0] == [] && ops[..1] == [ops[0]];
    forall i | 0 <= i < |ops| ensures FreshIds(Run(cfg, ops[..i]), ops[i]) {
      if i == 1 { assert "sb-1" != "es-1" by { assert "sb-1"[0] != "es-1"[0]; } }
    }
  }

  // Turned away by a subscription for another filter.
  lemma RefusedWrongly(cfg: Config, s: SubInfo) returns (ops: seq<Op>)
    requires Arrives(s) && Shares(s)
    ensures Usual(cfg, ops) && HashesApart(cfg, Run(cfg, ops).subs, s) && !RefusedRightly(cfg, Run(cfg, ops), s)
  {
    var b := SharedKey(s);
    ops := Subscribed(b);
    SubscribedUsual(cfg, b);
    OnlySubscription(cfg, b);
    AdmittedArrives(b.(stream := "es-1"), "sb-1");
    assert LookupKey(cfg, s) == LookupKey(cfg, b);
  }

  // Whatever else was subscribed to, a filter that can arrive is turned away exactly when a live subscription has it,
  // if and only if it shares its key with no other filter that can arrive.
  lemma RefusalExactly(cfg: Config, sub: SubInfo, id: string)
    requires Admitted(sub)
    ensures var s := SubDefaults(sub, id);
            (forall ops :: Usual(cfg, ops) && HashesApart(cfg, Run(cfg, ops).subs, s) ==>
               RefusedRightly(cfg, Run(cfg, ops), s))
            <==> !Shares(s)
  {
    var s := SubDefaults(sub, id);
    AdmittedArrives(sub, id);
    if Shares(s) {
      var ops := RefusedWrongly(cfg, s);
    } else {
      forall ops | Usual(cfg, ops) && HashesApart(cfg, Run(cfg, ops).subs, s)
        ensures RefusedRightly(cfg, Run(cfg, ops), s)
      {
        ArriveRun(cfg, ops);
        RefusedIffSameFilter(cfg, ops, sub, id);
      }
    }
  }
}
