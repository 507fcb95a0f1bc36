/** internal/events/submanager.go: streams and subscriptions in memory, their copies in the database,
    and what a restart rebuilds from those copies. Any write or delete may fail. */
module Registry {
  import opened Options
  import opened Ledger
  import StreamModel

  datatype Webhook = Webhook(url: string, requestTimeoutSec: nat, tlsSkipHostVerify: Option<bool>)

  datatype StreamInfo = StreamInfo(
    id: string, name: string, typ: string, suspended: Option<bool>, batchSize: nat, batchTimeoutMS: nat,
    errorHandling: string, retryTimeoutSec: nat, blockedRetryDelaySec: nat, webhook: Option<Webhook>,
    topic: Option<string>, timestamps: Option<bool>, timestampCacheSize: int)

  datatype SubInfo = SubInfo(
    id: string, channel: string, summary: string, name: string, stream: string, signer: string, fromBlock: string,
    chaincode: string, blockType: string, eventFilter: string, payloadType: string)

  // What is stored under one key, decoded.
  datatype Stored = StreamDoc(stream: StreamInfo) | SubDoc(sub: SubInfo) | SubRef(id: string) | Checkpoint(marks: Marks)

  // `hash` is the hexadecimal SHA-256; nothing is assumed about it.
  datatype Config = Config(hash: string -> string, websockets: bool)

  datatype Registry = Registry(streams: map<string, StreamInfo>, subs: map<string, SubInfo>, db: map<string, Stored>)

  // --- the prefixes of keys ---

  // "es-"
  predicate IsStreamId(k: string) { |k| >= 3 && k[0] == 'e' && k[1] == 's' && k[2] == '-' }

  // "sb-"
  predicate IsSubId(k: string) { |k| >= 3 && k[0] == 's' && k[1] == 'b' && k[2] == '-' }

  // "sub-", as in "sub-idx-"
  predicate IsLookupKey(k: string) { |k| >= 4 && k[0] == 's' && k[1] == 'u' && k[2] == 'b' && k[3] == '-' }

  // --- filling in what the user left out ---

  function LowerChar(c: char): char { if 'A' <= c <= 'Z' then (c as int + 32) as char else c }

  function Lower(s: string): string { seq(|s|, i requires 0 <= i < |s| => LowerChar(s[i])) }

  function TypeOf(t: string): string {
    if Lower(t) == "webhook" then "webhook" else if Lower(t) == "websocket" then "websocket" else t
  }

  function OrFalse(b: Option<bool>): Option<bool> { if b.None? then Some(false) else b }

  function OrElse(n: nat, default: nat): nat { if n == 0 then default else n }

  function WebhookDefaults(w: Webhook): Webhook {
    w.(requestTimeoutSec := OrElse(w.requestTimeoutSec, 120), tlsSkipHostVerify := OrFalse(w.tlsSkipHostVerify))
  }

  function ClampBatch(n: nat): nat {
    if n == 0 then 1 else if n > StreamModel.MAX_BATCH_SIZE then StreamModel.MAX_BATCH_SIZE else n
  }

  // newEventStream
  function StreamDefaults(s: StreamInfo): StreamInfo {
    s.(typ := TypeOf(s.typ),
       batchSize := ClampBatch(s.batchSize),
       batchTimeoutMS := OrElse(s.batchTimeoutMS, 5000),
       blockedRetryDelaySec := OrElse(s.blockedRetryDelaySec, 30),
       timestamps := OrFalse(s.timestamps),
       timestampCacheSize := if s.timestampCacheSize == 0 then 1000 else s.timestampCacheSize,
       errorHandling := if s.errorHandling == "" then "skip" else s.errorHandling,
       suspended := OrFalse(s.suspended),
       webhook :=
         if TypeOf(s.typ) == "webhook" && s.webhook.Some? then Some(WebhookDefaults(s.webhook.value)) else s.webhook)
  }

  predicate CanStart(cfg: Config, s: StreamInfo) {
    s.timestampCacheSize >= 0 && (TypeOf(s.typ) == "websocket" ==> cfg.websockets)
  }

  // recoverStreams: what a stored stream comes back as.
  function Restored(s: StreamInfo): StreamInfo {
    var webhook :=
      if s.webhook.Some? then Some(s.webhook.value.(tlsSkipHostVerify := OrFalse(s.webhook.value.tlsSkipHostVerify)))
      else None;
    StreamDefaults(s.(suspended := OrFalse(s.suspended), timestamps := OrFalse(s.timestamps), webhook := webhook))
  }

  lemma TypesAreFixed(t: string)
    ensures TypeOf(TypeOf(t)) == TypeOf(t)
  {
    assert Lower("webhook") == "webhook";
    assert Lower("websocket") == "websocket";
  }

  lemma DefaultsOnce(s: StreamInfo)
    ensures StreamDefaults(StreamDefaults(s)) == StreamDefaults(s)
  {
    TypesAreFixed(s.typ);
  }

  // Either case of each letter.
  predicate Spells(t: string, word: string) {
    |t| == |word| && forall i :: 0 <= i < |t| ==>
        t[i] == word[i] || ('A' <= t[i] <= 'Z' && t[i] as int + 32 == word[i] as int)
  }

  // The two types are known in any spelling; any other is left as it is.
  lemma TypesAreKnown(t: string)
    ensures Spells(t, "webhook") ==> TypeOf(t) == "webhook"
    ensures Spells(t, "websocket") ==> TypeOf(t) == "websocket"
    ensures !Spells(t, "webhook") && !Spells(t, "websocket") ==> TypeOf(t) == t
  {
    if Spells(t, "webhook") { assert Lower(t) == "webhook"; }
    if Spells(t, "websocket") { assert Lower(t) == "websocket"; }
    if Lower(t) == "webhook" { assert Spells(t, "webhook"); }
    if Lower(t) == "websocket" { assert Spells(t, "websocket"); }
  }

  // What the user left out gets the documented value, and what the user gave is kept; only the batch size is cut.
  lemma DefaultsRespectUser(s: StreamInfo)
    ensures var d := StreamDefaults(s);
            && d.batchSize == (if s.batchSize == 0 then 1 else if s.batchSize > 1000 then 1000 else s.batchSize)
            && d.batchTimeoutMS == (if s.batchTimeoutMS == 0 then 5000 else s.batchTimeoutMS)
            && d.blockedRetryDelaySec == (if s.blockedRetryDelaySec == 0 then 30 else s.blockedRetryDelaySec)
            && d.timestampCacheSize == (if s.timestampCacheSize == 0 then 1000 else s.timestampCacheSize)
            && d.errorHandling == (if s.errorHandling == "" then "skip" else s.errorHandling)
            && d.suspended == (if s.suspended.None? then Some(false) else s.suspended)
            && d.timestamps == (if s.timestamps.None? then Some(false) else s.timestamps)
            && (d.id, d.name, d.retryTimeoutSec, d.topic) == (s.id, s.name, s.retryTimeoutSec, s.topic)
            && Lower(d.typ) == Lower(s.typ) && d.typ == TypeOf(s.typ)
  {
    assert Lower("webhook") == "webhook";
    assert Lower("websocket") == "websocket";
  }

  // A webhook's section is filled in exactly for a webhook.
  lemma WebhookRespectsUser(s: StreamInfo)
    ensures var d := StreamDefaults(s);
            if s.webhook.Some? && Spells(s.typ, "webhook") then
              var was := s.webhook.value;
              d.webhook == Some(Webhook(was.url, if was.requestTimeoutSec == 0 then 120 else was.requestTimeoutSec,
                                        if was.tlsSkipHostVerify.None? then Some(false) else was.tlsSkipHostVerify))
            else d.webhook == s.webhook
  {
    TypesAreKnown(s.typ);
    assert Lower("websocket") != "webhook" by { assert |Lower("websocket")| == 9; }
  }

  // A stream starts unless its cache size is negative or its transport is missing.
  lemma StartsUnless(cfg: Config, s: StreamInfo)
    ensures CanStart(cfg, s) <==> s.timestampCacheSize >= 0 && (Spells(s.typ, "websocket") ==> cfg.websockets)
  {
    TypesAreKnown(s.typ);
  }

  // A stream comes back as it was, unless it carries an unused webhook section without the TLS option.
  lemma RestoredSame(s: StreamInfo)
    ensures Restored(StreamDefaults(s)) == StreamDefaults(s)
            <==> (s.webhook.Some? && s.webhook.value.tlsSkipHostVerify.None? ==> TypeOf(s.typ) == "webhook")
  {
    TypesAreFixed(s.typ);
  }

  // addSubscription
  function SubDefaults(s: SubInfo, id: string): SubInfo {
    var t := s.(id := id,
                fromBlock := if s.fromBlock == "" then "newest" else s.fromBlock,
                blockType := if s.blockType == "" then "tx" else s.blockType,
                eventFilter := if s.eventFilter == "" && s.chaincode != "" then ".*" else s.eventFilter);
    t.(name := if s.name == "" then id else s.name,
       summary := "FromBlock=" + t.fromBlock + ",Chaincode=" + t.chaincode + ",Filter=" + t.eventFilter)
  }

  // A subscription always names a block type and a starting point, and a filter once it names a chaincode;
  // what the user gave is kept.
  lemma SubDefaultsRespectUser(s: SubInfo, id: string)
    ensures var d := SubDefaults(s, id);
            && d.id == id && d.name == (if s.name == "" then id else s.name)
            && d.fromBlock == (if s.fromBlock == "" then "newest" else s.fromBlock)
            && d.blockType == (if s.blockType == "" then "tx" else s.blockType)
            && d.eventFilter == (if s.eventFilter == "" && s.chaincode != "" then ".*" else s.eventFilter)
            && (d.channel, d.chaincode, d.stream) == (s.channel, s.chaincode, s.stream)
            && (d.signer, d.payloadType) == (s.signer, s.payloadType)
            && SubDefaults(d, id) == d
  {
  }

  // resetSubscription
  function ResetTo(s: SubInfo, fromBlock: string): SubInfo {
    s.(fromBlock := if fromBlock == "" then "newest" else fromBlock)
  }

  // The summary is not part of the stored document.
  function Persisted(s: SubInfo): SubInfo { s.(summary := "") }

  function CompositeKey(s: SubInfo): string {
    s.channel + "-" + s.chaincode + "-" + s.blockType + "-" + s.eventFilter
  }

  function LookupKey(cfg: Config, s: SubInfo): string { "sub-idx-" + cfg.hash(CompositeKey(s)) }

  predicate SameFilter(a: SubInfo, b: SubInfo) {
    a.channel == b.channel && a.chaincode == b.chaincode && a.blockType == b.blockType && a.eventFilter == b.eventFilter
  }

  function CheckpointKey(streamId: string): string { "cp-" + streamId }

  // --- operations ---

  datatype Op =
    | AddStream(spec: StreamInfo, id: string, ok: bool)
    | SetSuspended(id: string, value: bool, ok: bool)
    | DeleteStream(id: string, drops: string -> nat, ok: bool, cpOk: bool)
    | AddSubscription(sub: SubInfo, id: string, writes: nat)
    | ResetSubscription(id: string, fromBlock: string, writes: nat)
    | DeleteSubscription(id: string, deletes: nat)
    | StoreCheckpoint(id: string, marks: Marks, ok: bool)
    | Restart

  // storeSubscription, when the first `writes` of its two writes succeed.
  function StoreSub(cfg: Config, db: map<string, Stored>, s: SubInfo, writes: nat): map<string, Stored> {
    if writes == 0 then db
    else if writes == 1 then db[s.id := SubDoc(Persisted(s))]
    else db[s.id := SubDoc(Persisted(s))][LookupKey(cfg, s) := SubRef(s.id)]
  }

  // The keys deleteSubscription deletes.
  function SubKeys(cfg: Config, s: SubInfo, deletes: nat): set<string> {
    if deletes == 0 then {} else if deletes == 1 then {s.id} else {s.id, LookupKey(cfg, s)}
  }

  // The keys deleteStream manages to delete for the stream's subscriptions.
  function DroppedKeys(cfg: Config, subs: map<string, SubInfo>, stream: string, drops: string -> nat): set<string> {
    (set id | id in subs && subs[id].stream == stream && drops(id) >= 1)
    + (set id | id in subs && subs[id].stream == stream && drops(id) >= 2 :: LookupKey(cfg, subs[id]))
  }

  function StreamKeys(id: string, ok: bool, cpOk: bool): set<string> {
    if !ok then {} else if !cpOk then {id} else {id, CheckpointKey(id)}
  }

  function Others(subs: map<string, SubInfo>, stream: string): map<string, SubInfo> {
    map id | id in subs && subs[id].stream != stream :: subs[id]
  }

  function DecimalValue(s: string): nat {
    if s == "" then 0 else
      var c := s[|s| - 1];
      DecimalValue(s[..|s| - 1]) * 10 + if '0' <= c <= '9' then c as int - '0' as int else 0
  }

  // resetSubscription takes nothing, "newest" or an unsigned 64-bit number.
  predicate ValidReset(fromBlock: string) {
    || fromBlock == "" || fromBlock == "newest"
    || (&& DecimalValue(fromBlock) < 0x1_0000_0000_0000_0000
        && forall i :: 0 <= i < |fromBlock| ==> '0' <= fromBlock[i] <= '9')
  }

  function RecoveredStreams(cfg: Config, db: map<string, Stored>): map<string, StreamInfo> {
    map k | k in db && IsStreamId(k) && db[k].StreamDoc? && CanStart(cfg, db[k].stream) :: Restored(db[k].stream)
  }

  function RecoveredSubs(streams: map<string, StreamInfo>, db: map<string, Stored>): map<string, SubInfo> {
    map k | k in db && IsSubId(k) && db[k].SubDoc? && db[k].sub.stream in streams :: db[k].sub
  }

  function Recovered(cfg: Config, db: map<string, Stored>): Registry {
    var streams := RecoveredStreams(cfg, db);
    Registry(streams, RecoveredSubs(streams, db), db)
  }

  // Whether addSubscription gets as far as registering.
  predicate Accepts(cfg: Config, r: Registry, s: SubInfo, id: string) {
    LookupKey(cfg, SubDefaults(s, id)) !in r.db && s.stream in r.streams
  }

  function Apply(cfg: Config, r: Registry, op: Op): Registry {
    match op
    case AddStream(spec, id, ok) =>
      var s := StreamDefaults(spec.(id := id));
      if !CanStart(cfg, spec) then r else
        r.(streams := r.streams[id := s], db := if ok then r.db[id := StreamDoc(s)] else r.db)
    case SetSuspended(id, value, ok) =>
      if id !in r.streams then r else
        var s := r.streams[id].(suspended := Some(value));
        r.(streams := r.streams[id := s], db := if ok then r.db[id := StreamDoc(s)] else r.db)
    case DeleteStream(id, drops, ok, cpOk) =>
      if id !in r.streams then r else
        Registry(r.streams - {id}, Others(r.subs, id),
            r.db - DroppedKeys(cfg, r.subs, id, drops) - StreamKeys(id, ok, cpOk))
    case AddSubscription(sub, id, writes) =>
      var s := SubDefaults(sub, id);
      if !Accepts(cfg, r, sub, id) then r else r.(subs := r.subs[id := s], db := StoreSub(cfg, r.db, s, writes))
    case ResetSubscription(id, fromBlock, writes) =>
      if id !in r.subs || !ValidReset(fromBlock) then r else
        var s := ResetTo(r.subs[id], fromBlock);
        r.(subs := r.subs[id := s], db := StoreSub(cfg, r.db, s, writes))
    case DeleteSubscription(id, deletes) =>
      if id !in r.subs then r else r.(subs := r.subs - {id}, db := r.db - SubKeys(cfg, r.subs[id], deletes))
    case StoreCheckpoint(id, marks, ok) =>
      if ok then r.(db := r.db[CheckpointKey(id) := Checkpoint(marks)]) else r
    case Restart => Recovered(cfg, r.db)
  }

  // Generated IDs carry their prefix and have not been used.
  predicate FreshIds(r: Registry, op: Op) {
    match op
    case AddStream(_, id, _) => IsStreamId(id) && id !in r.db && id !in r.streams
    case AddSubscription(_, id, _) => IsSubId(id) && id !in r.db && id !in r.subs
    case _ => true
  }

  function Run(cfg: Config, ops: seq<Op>): Registry {
    if ops == [] then Registry(map[], map[], map[])
    else Apply(cfg, Run(cfg, ops[..|ops| - 1]), ops[|ops| - 1])
  }

  ghost predicate FreshRun(cfg: Config, ops: seq<Op>) {
    forall i :: 0 <= i < |ops| ==> FreshIds(Run(cfg, ops[..i]), ops[i])
  }
}
