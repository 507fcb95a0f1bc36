/** internal/events/submanager.go in its own imperative form. Each method carries out one operation of
    Registry; the number of writes that go through is a parameter. */
module SubscriptionManagers {
  import opened Options
  import opened Ledger
  import opened Registry

  // Every document is stored under the ID it carries.
  ghost predicate OwnKeys(db: map<string, Stored>) {
    && (forall k :: k in db && IsStreamId(k) && db[k].StreamDoc? ==> db[k].stream.id == k)
    && (forall k :: k in db && IsSubId(k) && db[k].SubDoc? ==> db[k].sub.id == k)
  }

  class SubscriptionManager {
    const cfg: Config
    var streams: map<string, StreamInfo>
    var subscriptions: map<string, SubInfo>
    var db: map<string, Stored>

    ghost function View(): Registry
      reads this
    {
      Registry(streams, subscriptions, db)
    }

    // Init: recover what the database holds.
    constructor (cfg: Config, db: map<string, Stored>)
      ensures this.cfg == cfg
      ensures OwnKeys(db) ==> View() == Recovered(cfg, db)
    {
      this.cfg := cfg;
      streams, subscriptions, this.db := map[], map[], db;
      new;
      RecoverStreams();
      RecoverSubscriptions();
    }

    method RecoverStreams()
      requires streams == map[]
      modifies this`streams
      ensures OwnKeys(db) ==> streams == RecoveredStreams(cfg, db)
    {
      ghost var all := RecoveredStreams(cfg, db);
      var todo := db.Keys;
      while todo != {}
        invariant todo <= db.Keys
        invariant OwnKeys(db) ==> forall k :: k in streams <==> k in all && k !in todo
        invariant OwnKeys(db) ==> forall k :: k in streams ==> streams[k] == all[k]
        decreases todo
      {
        var k :| k in todo;
        todo := todo - {k};
        if IsStreamId(k) && db[k].StreamDoc? {
          var info := db[k].stream;
          if CanStart(cfg, info) {
            streams := streams[info.id := Restored(info)];
          }
        }
      }
      assert OwnKeys(db) ==> streams == all;
    }

    method RecoverSubscriptions()
      requires subscriptions == map[]
      modifies this`subscriptions
      ensures OwnKeys(db) ==> subscriptions == RecoveredSubs(streams, db)
    {
      ghost var all := RecoveredSubs(streams, db);
      var todo := db.Keys;
      while todo != {}
        invariant todo <= db.Keys
        invariant OwnKeys(db) ==> forall k :: k in subscriptions <==> k in all && k !in todo
        invariant OwnKeys(db) ==> forall k :: k in subscriptions ==> subscriptions[k] == all[k]
        decreases todo
      {
        var k :| k in todo;
        todo := todo - {k};
        if IsSubId(k) && db[k].SubDoc? {
          var info := db[k].sub;
          if info.stream in streams {
            subscriptions := subscriptions[info.id := info];
          }
        }
      }
      assert OwnKeys(db) ==> subscriptions == all;
    }

    method Put(key: string, value: Stored, ok: bool) returns (err: bool)
      modifies this`db
      ensures err == !ok && db == if ok then old(db)[key := value] else old(db)
    {
      if ok {
        db := db[key := value];
      }
      err := !ok;
    }

    method Delete(key: string, ok: bool) returns (err: bool)
      modifies this`db
      ensures err == !ok && db == if ok then old(db) - {key} else old(db)
    {
      if ok {
        db := db - {key};
      }
      err := !ok;
    }

    method AddStream(spec: StreamInfo, id: string, ok: bool) returns (err: bool)
      modifies this
      ensures View() == Apply(cfg, old(View()), Op.AddStream(spec, id, ok))
      ensures err <==> !ok || spec.timestampCacheSize < 0 || (Spells(spec.typ, "websocket") && !cfg.websockets)
      ensures err ==> db == old(db)
    {
      StartsUnless(cfg, spec);
      if !CanStart(cfg, spec) {
        return true;
      }
      var s := StreamDefaults(spec.(id := id));
      streams := streams[id := s];
      err := Put(id, StreamDoc(s), ok);
    }

    // suspendStream and resumeStream, once the stream itself has changed state.
    method StoreSuspended(id: string, value: bool, ok: bool) returns (err: bool)
      modifies this
      ensures View() == Apply(cfg, old(View()), SetSuspended(id, value, ok))
      ensures err <==> !ok || id !in old(streams)
      ensures id in old(streams) ==>
                && streams == old(streams)[id := old(streams)[id].(suspended := Some(value))]
                && db == if ok then old(db)[id := StreamDoc(streams[id])] else old(db)
      ensures subscriptions == old(subscriptions)
    {
      if id !in streams {
        return true;
      }
      var s := streams[id].(suspended := Some(value));
      streams := streams[id := s];
      err := Put(id, StreamDoc(s), ok);
    }

    method StoreSubscription(info: SubInfo, writes: nat) returns (err: bool)
      modifies this`db
      ensures db == StoreSub(cfg, old(db), info, writes) && err == (writes < 2)
      ensures writes == 0 ==> db == old(db)
      ensures writes >= 1 && LookupKey(cfg, info) != info.id ==>
                info.id in db && db[info.id].SubDoc? && db[info.id].sub.(summary := info.summary) == info
      ensures writes >= 2 ==> LookupKey(cfg, info) in db && db[LookupKey(cfg, info)] == SubRef(info.id)
      ensures forall k :: k != info.id && k != LookupKey(cfg, info) ==> (k in db <==> k in old(db))
                                                                        && (k in db ==> db[k] == old(db)[k])
    {
      err := Put(info.id, SubDoc(Persisted(info)), writes >= 1);
      if !err {
        err := Put(LookupKey(cfg, info), SubRef(info.id), writes >= 2);
      }
    }

    // Returns the HTTP status, and whether an error goes with it.
    method AddSubscription(sub: SubInfo, id: string, writes: nat) returns (status: nat, err: bool)
      modifies this
      ensures View() == Apply(cfg, old(View()), Op.AddSubscription(sub, id, writes))
      ensures status == 400 <==> LookupKey(cfg, SubDefaults(sub, id)) in old(db)
      ensures status == 200 <==> Accepts(cfg, old(View()), sub, id)
      ensures !err <==> status == 200 && writes >= 2
    {
      var info := SubDefaults(sub, id);
      if LookupKey(cfg, info) in db {
        return 400, true;
      }
      if info.stream !in streams {
        return 500, true;
      }
      subscriptions := subscriptions[info.id := info];
      status := 200;
      err := StoreSubscription(info, writes);
    }

    method ResetSubscription(id: string, initialBlock: string, writes: nat) returns (err: bool)
      requires id in subscriptions && subscriptions[id].id == id
      modifies this
      ensures View() == Apply(cfg, old(View()), Op.ResetSubscription(id, initialBlock, writes))
      ensures err <==> !ValidReset(initialBlock) || writes < 2
      ensures ValidReset(initialBlock) ==>
                var start := if initialBlock == "" then "newest" else initialBlock;
                subscriptions == old(subscriptions)[id := old(subscriptions)[id].(fromBlock := start)]
    {
      if !ValidReset(initialBlock) {
        return true;
      }
      var info := ResetTo(subscriptions[id], initialBlock);
      subscriptions := subscriptions[id := info];
      err := StoreSubscription(info, writes);
    }

    method DeleteSubscription(info: SubInfo, deletes: nat) returns (err: bool)
      modifies this`subscriptions, this`db
      ensures subscriptions == old(subscriptions) - {info.id}
      ensures db == old(db) - SubKeys(cfg, info, deletes) && err == (deletes < 2)
      ensures db == if deletes == 0 then old(db) else if deletes == 1 then old(db) - {info.id}
                    else old(db) - {info.id, LookupKey(cfg, info)}
      ensures info.id in old(subscriptions) && old(subscriptions)[info.id] == info ==>
                View() == Apply(cfg, old(View()), Op.DeleteSubscription(info.id, deletes))
    {
      subscriptions := subscriptions - {info.id};
      err := Delete(info.id, deletes >= 1);
      if !err {
        err := Delete(LookupKey(cfg, info), deletes >= 2);
      }
    }

    // The subscriptions go first; a failure there is only logged.
    method DeleteStream(id: string, drops: string -> nat, ok: bool, cpOk: bool) returns (err: bool)
      requires id in streams && forall k :: k in subscriptions ==> subscriptions[k].id == k
      modifies this
      ensures View() == Apply(cfg, old(View()), Op.DeleteStream(id, drops, ok, cpOk))
      ensures err == !ok && id !in streams && (id in db ==> !ok)
    {
      DeleteSubscriptionsOf(id, drops);
      streams := streams - {id};
      err := Delete(id, ok);
      if !err {
        var _ := Delete(CheckpointKey(id), cpOk);
      }
    }

    method DeleteSubscriptionsOf(id: string, drops: string -> nat)
      requires forall k :: k in subscriptions ==> subscriptions[k].id == k
      modifies this`subscriptions, this`db
      ensures subscriptions == Others(old(subscriptions), id)
      ensures db == old(db) - DroppedKeys(cfg, old(subscriptions), id, drops)
    {
      ghost var was := subscriptions;
      var todo := subscriptions.Keys;
      assert Swept(was, todo) == map[];
      while todo != {}
        invariant Sweeping(was, todo, subscriptions, id)
        invariant SweptFrom(cfg, was, todo, id, drops, old(db), db)
        decreases todo
      {
        var k :| k in todo;
        var sub := subscriptions[k];
        SweepOne(was, todo, subscriptions, k, id);
        SweepKeys(cfg, was, todo, k, id, drops, old(db), db);
        if sub.stream == id {
          var _ := DeleteSubscription(sub, drops(k));
        }
        todo := todo - {k};
      }
      assert Swept(was, {}) == was;
    }
  }

  // The loop of deleteStream: `todo` is still to be looked at.
  ghost predicate Sweeping(was: map<string, SubInfo>, todo: set<string>, subs: map<string, SubInfo>, id: string) {
    && todo <= was.Keys
    && (forall k :: k in was ==> was[k].id == k)
    && subs == map k | k in was && (k in todo || was[k].stream != id) :: was[k]
  }

  function Swept(was: map<string, SubInfo>, todo: set<string>): map<string, SubInfo> {
    map k | k in was && k !in todo :: was[k]
  }

  ghost predicate SweptFrom(cfg: Config, was: map<string, SubInfo>, todo: set<string>, id: string, drops: string -> nat,
                            before: map<string, Stored>, db: map<string, Stored>)
  {
    db == before - DroppedKeys(cfg, Swept(was, todo), id, drops)
  }

  lemma SweepKeys(cfg: Config, was: map<string, SubInfo>, todo: set<string>, k: string, id: string,
                  drops: string -> nat, before: map<string, Stored>, db: map<string, Stored>)
    requires k in todo && k in was && was[k].id == k && SweptFrom(cfg, was, todo, id, drops, before, db)
    ensures SweptFrom(cfg, was, todo - {k}, id, drops, before,
                      if was[k].stream == id then db - SubKeys(cfg, was[k], drops(k)) else db)
  {
    DroppedMore(cfg, Swept(was, todo), k, was[k], id, drops);
    assert Swept(was, todo - {k}) == Swept(was, todo)[k := was[k]];
    MinusTwice(before, DroppedKeys(cfg, Swept(was, todo), id, drops), SubKeys(cfg, was[k], drops(k)));
  }

  lemma SweepOne(was: map<string, SubInfo>, todo: set<string>, subs: map<string, SubInfo>, k: string, id: string)
    requires Sweeping(was, todo, subs, id) && k in todo
    ensures k in subs && subs[k] == was[k]
    ensures Sweeping(was, todo - {k}, if subs[k].stream == id then subs - {k} else subs, id)
  {
  }

  lemma MinusTwice<K, V>(m: map<K, V>, s: set<K>, t: set<K>)
    ensures m - s - t == m - (s + t)
  {
  }

  lemma DroppedMore(cfg: Config, done: map<string, SubInfo>, k: string, s: SubInfo, id: string, drops: string -> nat)
    requires k !in done && s.id == k
    ensures DroppedKeys(cfg, done[k := s], id, drops) ==
            DroppedKeys(cfg, done, id, drops) + if s.stream == id then SubKeys(cfg, s, drops(k)) else {}
  {
    var more := done[k := s];
    forall x ensures x in DroppedKeys(cfg, more, id, drops) <==>
                     x in DroppedKeys(cfg, done, id, drops) || (s.stream == id && x in SubKeys(cfg, s, drops(k)))
    {
      if s.stream == id && x in SubKeys(cfg, s, drops(k)) {
        assert k in more && more[k] == s;
      }
      if i :| i in done && done[i].stream == id && drops(i) >= 2 && LookupKey(cfg, done[i]) == x {
        assert more[i] == done[i];
      }
    }
  }
}
