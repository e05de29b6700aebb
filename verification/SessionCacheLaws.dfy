/**
 What each transaction of the session cache is for: what is there after a save, a touch, a backfill and a
 prune, and which preview a state gets.
 */
module SessionCacheLaws {
  import opened Wrappers
  import opened SessionCacheModel
  import opened SessionCacheRuns

  // ---- Saving and showing --------------------------------------------------------------------

  /** What was saved is loaded again, exactly if its hash and its number of messages are right; nothing else changes. */
  lemma SavedIsLoadedIff(c: Codec, db: Stores, key: string, json: Json, hash: Hash, messageHashes: seq<Hash>, now: Millis)
    requires c.decode(json).Some?
    ensures var after := Save(c, db, key, json, hash, messageHashes, now);
            && (Load(c, after, key) == Some(Loaded(json, hash, messageHashes))
                <==> c.hash(json) == hash && |c.decode(json).value| == |messageHashes|)
            && (LoadRefuses(c, after, key) <==> c.hash(json) != hash || |c.decode(json).value| != |messageHashes|)
            && key in after.manifests && after.manifests[key].lastAccessedAt == now
            && after.manifests[key].preview == PreviewOf(c, json)
            && after.manifests == db.manifests[key := after.manifests[key]] && after.snapshots == db.snapshots[key := json]
  {
  }

  /** The stored preview is shown exactly if it decodes and is under its own hash, and with the snapshot's hash. */
  lemma PreviewIsShownIff(c: Codec, db: Stores, key: string, hash: Hash, json: Json)
    ensures LoadPreview(c, db, key) == Some((hash, json))
            <==> && key in db.manifests && db.manifests[key].hash == hash
                 && db.manifests[key].preview == Some(Preview(json, c.hash(json))) && c.decode(json).Some?
  {
  }

  /** A preview is added exactly where there is none and the snapshot is still the one it was made of; its bytes count then. */
  lemma BackfillAddsIff(c: Codec, db: Stores, key: string, snapshotHash: Hash, preview: Preview)
    ensures var after := Backfill(c, db, key, snapshotHash, Some(preview));
            && after.snapshots == db.snapshots
            && if key in db.manifests && db.manifests[key].hash == snapshotHash && db.manifests[key].preview == None then
                 && key in after.manifests && after.manifests == db.manifests[key := after.manifests[key]]
                 && after.manifests[key].preview == Some(preview)
                 && after.manifests[key].byteSize == db.manifests[key].byteSize + c.bytes(preview.json)
                 && after.manifests[key].hash == snapshotHash && after.manifests[key].messageHashes == db.manifests[key].messageHashes
                 && after.manifests[key].lastAccessedAt == db.manifests[key].lastAccessedAt && after.manifests[key].key == db.manifests[key].key
               else after == db
  {
  }

  /** An entry touched later than all others is the first that a prune lists, with nothing else of it changed. */
  lemma TouchMovesToFront(db: Stores, key: string, now: Millis, list: seq<Manifest>)
    requires key in db.manifests && Listing(Touch(db, key, now), list)
    requires forall k | k in db.manifests && k != key :: db.manifests[k].lastAccessedAt < now
    ensures list != [] && list[0] == db.manifests[key].(lastAccessedAt := now)
    ensures Touch(db, key, now).snapshots == db.snapshots
    ensures forall k | k in db.manifests && k != key :: k in Touch(db, key, now).manifests && Touch(db, key, now).manifests[k] == db.manifests[k]
  {
    var after := Touch(db, key, now);
    assert after.manifests[key] in list;
    assert list[0] in list;
  }

  // ---- Pruning -------------------------------------------------------------------------------

  /** The bytes of those whose keys are not given up. */
  function SparedBytes(list: seq<Manifest>, given: set<string>): nat {
    if list == [] then 0
    else SparedBytes(list[..|list| - 1], given) + (if list[|list| - 1].key in given then 0 else list[|list| - 1].byteSize)
  }

  lemma {:induction false} SparedAreRetained(l: Limits, list: seq<Manifest>, n: nat)
    requires n <= |list| && forall i, j | 0 <= i < j < |list| :: list[i].key != list[j].key
    ensures SparedBytes(list[..n], Evicted(l, list)) == RetainedBytes(l, list, n)
    decreases n
  {
    if n > 0 {
      SparedAreRetained(l, list, n - 1);
      EvictedIff(l, list, n - 1);
      assert list[..n][..n - 1] == list[..n - 1];
    }
  }

  /** From the newest on: an entry is spared exactly if its place and, with all spared before it, its bytes are within the limits. */
  lemma EntryIsSparedIff(l: Limits, list: seq<Manifest>, i: nat)
    requires i < |list| && forall j, k | 0 <= j < k < |list| :: list[j].key != list[k].key
    ensures list[i].key !in Evicted(l, list)
            <==> i < l.maxSessions && SparedBytes(list[..i], Evicted(l, list)) + list[i].byteSize <= l.maxBytes
  {
    EvictedIff(l, list, i);
    SparedAreRetained(l, list, i);
  }

  // ---- Which preview -------------------------------------------------------------------------

  function Min(a: nat, b: nat): nat { if a <= b then a else b }

  /** How many rendered messages the longest preview has: all there are, at most `room`. */
  function Longest(messages: seq<Message>, room: nat): nat {
    Min(room, CountRenderable(messages, 0, |messages|))
  }

  /** The numbers of rendered messages that are tried: from `count` on a quarter fewer each time, rounded up, down to one. */
  function Tried(count: nat): seq<nat> {
    if count == 0 then [] else [count] + Tried(if count < 4 then count - 1 else count * 3 / 4)
  }

  lemma {:induction false} StartsAreCounted(messages: seq<Message>, upTo: nat, room: nat)
    requires upTo <= |messages|
    ensures |Starts(messages, upTo, room)| == Min(room, CountRenderable(messages, 0, upTo))
    decreases upTo
  {
    if upTo > 0 && room > 0 {
      StartsAreCounted(messages, upTo - 1, if Renderable(messages, upTo - 1) then room - 1 else room);
    }
  }

  /** A start from which exactly `n` messages are rendered, itself among them. */
  ghost predicate StartsWith(messages: seq<Message>, n: nat, start: nat) {
    start < |messages| && Renderable(messages, start) && CountRenderable(messages, start, |messages|) == n
  }

  lemma CandidateStarts(messages: seq<Message>, room: nat, n: nat)
    requires 0 < n <= Longest(messages, room)
    ensures |Candidates(messages, room)| == Longest(messages, room)
    ensures StartsWith(messages, n, Candidates(messages, room)[n - 1])
  {
    StartsAreCounted(messages, |messages|, room);
    StartIsCandidate(messages, room, n, Starts(messages, |messages|, room));
  }

  lemma StartIsCandidate(messages: seq<Message>, room: nat, n: nat, starts: seq<nat>)
    requires starts == Starts(messages, |messages|, room) && 0 < n <= |starts|
    ensures Candidates(messages, room) == starts && StartsWith(messages, n, starts[n - 1])
  {
    StartsCount(messages, |messages|, room, n - 1);
  }

  /** The end of the state with the `n`-th start is short enough. */
  predicate Fits(c: Codec, json: Json, starts: seq<nat>, n: nat) {
    0 < n <= |starts| && c.bytes(c.slice(json, starts[n - 1])) <= MAX_PREVIEW_BYTES
  }

  /** The first number of the list that fits. */
  ghost predicate FirstFitting(c: Codec, json: Json, starts: seq<nat>, tried: seq<nat>, i: nat) {
    i < |tried| && Fits(c, json, starts, tried[i]) && forall j | 0 <= j < i :: !Fits(c, json, starts, tried[j])
  }

  ghost predicate NoneFits(c: Codec, json: Json, starts: seq<nat>, tried: seq<nat>) {
    forall j | 0 <= j < |tried| :: !Fits(c, json, starts, tried[j])
  }

  lemma {:induction false} FirstFitIsOfTried(c: Codec, json: Json, starts: seq<nat>, count: nat) returns (i: nat)
    requires count <= |starts|
    ensures match FirstFit(c, json, starts, count)
            case Some(n) => FirstFitting(c, json, starts, Tried(count), i) && Tried(count)[i] == n
            case None => NoneFits(c, json, starts, Tried(count))
    decreases count
  {
    i := 0;
    if count > 0 && !Fits(c, json, starts, count) {
      var rest := FirstFitIsOfTried(c, json, starts, Fewer(count));
      OneMoreTried(c, json, starts, count, Tried(Fewer(count)), rest);
      i := rest + 1;
    }
  }

  lemma OneMoreTried(c: Codec, json: Json, starts: seq<nat>, n: nat, tried: seq<nat>, i: nat)
    requires !Fits(c, json, starts, n)
    ensures FirstFitting(c, json, starts, tried, i) ==> FirstFitting(c, json, starts, [n] + tried, i + 1) && ([n] + tried)[i + 1] == tried[i]
    ensures NoneFits(c, json, starts, tried) ==> NoneFits(c, json, starts, [n] + tried)
  {
    var longer := [n] + tried;
    assert forall j | 0 < j < |longer| :: longer[j] == tried[j - 1];
  }

  /**
   The preview of a state of which something is rendered is the longest end of it, of those with a tried number of
   rendered messages, that is short enough; there is none exactly if all of them are too long.
   */
  lemma PreviewIsLongestTriedIff(c: Codec, room: nat, json: Json, messages: seq<Message>)
    requires 0 < Longest(messages, room)
    ensures var starts, tried := Candidates(messages, room), Tried(Longest(messages, room));
            && |starts| == Longest(messages, room)
            && match CreatePreview(c, room, json, messages)
               case None => NoneFits(c, json, starts, tried)
               case Some(preview) =>
                 && preview.hash == c.hash(preview.json)
                 && exists i: nat :: FirstFitting(c, json, starts, tried, i) && preview.json == c.slice(json, starts[tried[i] - 1])
  {
    CandidateStarts(messages, room, 1);
    var starts := Candidates(messages, room);
    var i := FirstFitIsOfTried(c, json, starts, |starts|);
  }
}
