/**
 The browser's session cache: two object stores that only whole transactions change. Each function
 is one transaction, or the computation between two of them.
 */
module SessionCacheModel {
  import opened Wrappers

  const PREVIEW_RENDERABLE_MESSAGES: nat := 50
  const MAX_PREVIEW_BYTES: nat := 256 * 1024

  type Json = nat
  type Hash = nat
  type Millis = nat

  /** Of a message only its role matters: tool results are not rendered on their own. */
  datatype Message = Message(toolResult: bool)

  /** Encoding, decoding and hashing, which are foreign; `slice` encodes the state from a message on. */
  datatype Codec = Codec(
    decode: Json -> Option<seq<Message>>,
    slice: (Json, nat) -> Json,
    bytes: Json -> nat,
    hash: Json -> Hash)

  datatype Limits = Limits(maxBytes: nat, maxSessions: nat)

  datatype Preview = Preview(json: Json, hash: Hash)

  datatype Manifest = Manifest(
    key: string, hash: Hash, messageHashes: seq<Hash>, preview: Option<Preview>, byteSize: nat, lastAccessedAt: Millis)

  datatype Stores = Stores(manifests: map<string, Manifest>, snapshots: map<string, Json>)

  datatype Loaded = Loaded(json: Json, hash: Hash, messageHashes: seq<Hash>)

  // ---- The preview ---------------------------------------------------------------------------

  function Renderable(messages: seq<Message>, i: nat): bool
    requires i < |messages|
  {
    !messages[i].toolResult
  }

  /** The last renderable messages below `upTo`, at most `room` of them, newest first. */
  function Starts(messages: seq<Message>, upTo: nat, room: nat): (r: seq<nat>)
    requires upTo <= |messages|
    ensures |r| <= room && forall i | 0 <= i < |r| :: r[i] < upTo && Renderable(messages, r[i])
  {
    if upTo == 0 || room == 0 then []
    else if Renderable(messages, upTo - 1) then [upTo - 1] + Starts(messages, upTo - 1, room - 1)
    else Starts(messages, upTo - 1, room)
  }

  function Candidates(messages: seq<Message>, room: nat): (r: seq<nat>)
    ensures |r| > 0
  {
    var starts := Starts(messages, |messages|, room);
    if starts == [] then [0] else starts
  }

  /** The next number of messages to try: a quarter fewer, and at least one fewer. */
  function Fewer(count: nat): (r: nat)
    requires count > 0
    ensures r < count && (count > 1 ==> r > 0)
  {
    if count - 1 <= count * 3 / 4 then count - 1 else count * 3 / 4
  }

  /** The first candidate from `count` on that fits. */
  function FirstFit(c: Codec, json: Json, starts: seq<nat>, count: nat): (r: Option<nat>)
    requires count <= |starts|
    ensures r.Some? ==> 0 < r.value <= count && c.bytes(c.slice(json, starts[r.value - 1])) <= MAX_PREVIEW_BYTES
  {
    if count == 0 then None
    else if c.bytes(c.slice(json, starts[count - 1])) <= MAX_PREVIEW_BYTES then Some(count)
    else FirstFit(c, json, starts, Fewer(count))
  }

  /** `room` is the largest number of rendered messages to show. */
  function CreatePreview(c: Codec, room: nat, json: Json, messages: seq<Message>): Option<Preview> {
    var starts := Candidates(messages, room);
    match FirstFit(c, json, starts, |starts|)
    case None => None
    case Some(count) => Some(Preview(c.slice(json, starts[count - 1]), c.hash(c.slice(json, starts[count - 1]))))
  }

  // ---- Transactions --------------------------------------------------------------------------

  function PreviewBytes(c: Codec, preview: Option<Preview>): nat {
    if preview.None? then 0 else c.bytes(preview.value.json)
  }

  /** The preview of an encoded state, if it decodes and any candidate fits. */
  function PreviewOf(c: Codec, json: Json): Option<Preview> {
    if c.decode(json).None? then None else CreatePreview(c, PREVIEW_RENDERABLE_MESSAGES, json, c.decode(json).value)
  }

  function Put(c: Codec, db: Stores, key: string, json: Json, saved: (Hash, seq<Hash>), preview: Option<Preview>, now: Millis): Stores {
    var manifest := Manifest(key, saved.0, saved.1, preview, c.bytes(json) + PreviewBytes(c, preview), now);
    Stores(db.manifests[key := manifest], db.snapshots[key := json])
  }

  /** A state that does not decode is not saved. */
  function Save(c: Codec, db: Stores, key: string, json: Json, hash: Hash, messageHashes: seq<Hash>, now: Millis): Stores {
    if c.decode(json).None? then db else Put(c, db, key, json, (hash, messageHashes), PreviewOf(c, json), now)
  }

  function Remove(db: Stores, key: string): Stores {
    Stores(db.manifests - {key}, db.snapshots - {key})
  }

  function Touch(db: Stores, key: string, now: Millis): Stores {
    if key in db.manifests then db.(manifests := db.manifests[key := db.manifests[key].(lastAccessedAt := now)]) else db
  }

  /** Gives a snapshot without a preview the one computed for its hash. */
  function Backfill(c: Codec, db: Stores, key: string, snapshotHash: Hash, preview: Option<Preview>): Stores {
    if preview.Some? && key in db.manifests && db.manifests[key].hash == snapshotHash && db.manifests[key].preview.None? then
      var current := db.manifests[key];
      db.(manifests := db.manifests[key := current.(preview := preview, byteSize := current.byteSize + c.bytes(preview.value.json))])
    else db
  }

  /** What `load` makes of the one transaction in which it reads both stores. */
  function Load(c: Codec, db: Stores, key: string): Option<Loaded> {
    if key !in db.manifests || key !in db.snapshots then None
    else
      var manifest, json := db.manifests[key], db.snapshots[key];
      if c.decode(json).None? || c.hash(json) != manifest.hash || |c.decode(json).value| != |manifest.messageHashes| then None
      else Some(Loaded(json, manifest.hash, manifest.messageHashes))
  }

  /** Whether `load` refuses what it read; it removes the key then, in a later transaction. */
  predicate LoadRefuses(c: Codec, db: Stores, key: string) {
    (key in db.manifests || key in db.snapshots) && Load(c, db, key).None?
  }

  /** What `loadPreview` returns: the hash of the snapshot and the preview that stands for it. */
  function LoadPreview(c: Codec, db: Stores, key: string): Option<(Hash, Json)> {
    if key !in db.manifests || db.manifests[key].preview.None? then None
    else
      var preview := db.manifests[key].preview.value;
      if c.decode(preview.json).None? || c.hash(preview.json) != preview.hash then None
      else Some((db.manifests[key].hash, preview.json))
  }

  // ---- Pruning -------------------------------------------------------------------------------

  /** The bytes retained among the first `n`. */
  function RetainedBytes(l: Limits, list: seq<Manifest>, n: nat): (r: nat)
    requires n <= |list|
    ensures r <= l.maxBytes
    decreases n, 0
  {
    if n == 0 then 0
    else RetainedBytes(l, list, n - 1) + (if Retains(l, list, n - 1) then list[n - 1].byteSize else 0)
  }

  predicate Retains(l: Limits, list: seq<Manifest>, i: nat)
    requires i < |list|
    decreases i, 1
  {
    i < l.maxSessions && RetainedBytes(l, list, i) + list[i].byteSize <= l.maxBytes
  }

  /** The keys that pruning gives up, with the entries newest first. */
  function Evicted(l: Limits, list: seq<Manifest>): set<string> {
    set i | 0 <= i < |list| && !Retains(l, list, i) :: list[i].key
  }

  function Evict(db: Stores, keys: set<string>): Stores {
    Stores(db.manifests - keys, db.snapshots - keys)
  }

  /** `list` is all the manifests, most recently used first; a manifest is stored under its own key. */
  ghost predicate Listing(db: Stores, list: seq<Manifest>) {
    && (forall m | m in list :: m.key in db.manifests && db.manifests[m.key] == m)
    && (forall k | k in db.manifests :: db.manifests[k] in list && db.manifests[k].key == k)
    && (forall i, j | 0 <= i < j < |list| :: list[i].key != list[j].key && list[i].lastAccessedAt >= list[j].lastAccessedAt)
  }
}
