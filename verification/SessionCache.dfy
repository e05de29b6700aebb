/**
 The session cache as the program runs it: its loops, and each transaction on the two stores,
 proved against `SessionCacheModel`.
 */
module SessionCache {
  import opened Wrappers
  import Model = SessionCacheModel
  import opened SessionCacheModel

  lemma {:induction false} StartsBelow(messages: seq<Message>, upTo: nat, room: nat, taken: seq<nat>, all: seq<nat>)
    requires upTo < |messages| && room > 0 && all == taken + Starts(messages, upTo + 1, room)
    ensures Renderable(messages, upTo) ==> all == taken + [upTo] + Starts(messages, upTo, room - 1)
    ensures !Renderable(messages, upTo) ==> all == taken + Starts(messages, upTo, room)
  {
  }

  lemma EvictOneMore(db: Stores, evicted: seq<Manifest>, i: nat)
    requires i < |evicted|
    ensures var before := Model.Evict(db, set m | m in evicted[..i] :: m.key);
            Model.Evict(db, set m | m in evicted[..i + 1] :: m.key)
            == Stores(before.manifests - {evicted[i].key}, before.snapshots - {evicted[i].key})
  {
    var keys := set m | m in evicted[..i] :: m.key;
    assert evicted[..i + 1] == evicted[..i] + [evicted[i]];
    assert (set m | m in evicted[..i + 1] :: m.key) == keys + {evicted[i].key};
    assert db.manifests - keys - {evicted[i].key} == db.manifests - (keys + {evicted[i].key});
    assert db.snapshots - keys - {evicted[i].key} == db.snapshots - (keys + {evicted[i].key});
  }

  class IndexedDbSessionStateCache {
    const c: Codec
    const limits: Limits
    var manifests: map<string, Manifest>
    var snapshots: map<string, Json>

    ghost function View(): Stores
      reads this
    {
      Stores(manifests, snapshots)
    }

    constructor (c: Codec, limits: Limits)
      ensures this.c == c && this.limits == limits && View() == Stores(map[], map[])
    {
      this.c := c;
      this.limits := limits;
      manifests, snapshots := map[], map[];
    }

    static method CollectStarts(messages: seq<Message>, room: nat) returns (starts: seq<nat>)
      requires room > 0
      ensures starts == Candidates(messages, room)
    {
      starts := [];
      ghost var all := Starts(messages, |messages|, room);
      var index: int := |messages| - 1;
      while index >= 0
        invariant -1 <= index < |messages| && |starts| < room
        invariant all == starts + Starts(messages, index + 1, room - |starts|)
        decreases index
      {
        StartsBelow(messages, index, room - |starts|, starts, all);
        if !messages[index].toolResult { starts := starts + [index]; }
        if |starts| >= room { break; }
        index := index - 1;
      }
      assert all == starts;
      if starts == [] { starts := [0]; }
    }

    static method CreatePreview(c: Codec, room: nat, json: Json, messages: seq<Message>) returns (preview: Option<Preview>)
      requires room > 0
      ensures preview == Model.CreatePreview(c, room, json, messages)
    {
      var starts := CollectStarts(messages, room);
      var count := |starts|;
      while count > 0
        invariant 0 <= count <= |starts|
        invariant FirstFit(c, json, starts, |starts|) == FirstFit(c, json, starts, count)
        decreases count
      {
        var sliced := c.slice(json, starts[count - 1]);
        if c.bytes(sliced) <= MAX_PREVIEW_BYTES { return Some(Preview(sliced, c.hash(sliced))); }
        count := if count - 1 <= count * 3 / 4 then count - 1 else count * 3 / 4;
      }
      return None;
    }

    /** `save` up to the end of its transaction. */
    method Save(key: string, json: Json, hash: Hash, messageHashes: seq<Hash>, now: Millis)
      modifies this
      ensures View() == Model.Save(c, old(View()), key, json, hash, messageHashes, now)
    {
      var decoded := c.decode(json);
      if decoded.None? { return; }
      var preview := CreatePreview(c, PREVIEW_RENDERABLE_MESSAGES, json, decoded.value);
      Put(key, json, hash, messageHashes, preview, now);
    }

    method Put(key: string, json: Json, hash: Hash, messageHashes: seq<Hash>, preview: Option<Preview>, now: Millis)
      modifies this
      ensures View() == Model.Put(c, old(View()), key, json, (hash, messageHashes), preview, now)
    {
      var previewBytes := if preview.Some? then c.bytes(preview.value.json) else 0;
      manifests := manifests[key := Manifest(key, hash, messageHashes, preview, c.bytes(json) + previewBytes, now)];
      snapshots := snapshots[key := json];
    }

    /** `load` up to its end, or to the await before the removal of what it refuses; the removal is `Remove`. */
    method Load(key: string) returns (loaded: Option<Loaded>, refused: bool)
      ensures loaded == Model.Load(c, View(), key)
      ensures refused == LoadRefuses(c, View(), key)
    {
      if key !in manifests || key !in snapshots { return None, key in manifests || key in snapshots; }
      var manifest, json := manifests[key], snapshots[key];
      var decoded := c.decode(json);
      if decoded.None? || c.hash(json) != manifest.hash || |decoded.value| != |manifest.messageHashes| { return None, true; }
      return Some(Loaded(json, manifest.hash, manifest.messageHashes)), false;
    }

    method LoadPreview(key: string) returns (shown: Option<(Hash, Json)>)
      ensures shown == Model.LoadPreview(c, View(), key)
    {
      if key !in manifests || manifests[key].preview.None? { return None; }
      var preview := manifests[key].preview.value;
      if c.decode(preview.json).None? || c.hash(preview.json) != preview.hash { return None; }
      return Some((manifests[key].hash, preview.json));
    }

    method Remove(key: string)
      modifies this
      ensures View() == Model.Remove(old(View()), key)
    {
      manifests := manifests - {key};
      snapshots := snapshots - {key};
    }

    method Touch(key: string, now: Millis)
      modifies this`manifests
      ensures View() == Model.Touch(old(View()), key, now)
    {
      if key in manifests { manifests := manifests[key := manifests[key].(lastAccessedAt := now)]; }
    }

    /** `backfillPreview`, on the state of an earlier load. */
    method Backfill(key: string, snapshotHash: Hash, json: Json)
      modifies this`manifests
      ensures View() == Model.Backfill(c, old(View()), key, snapshotHash, PreviewOf(c, json))
    {
      var decoded := c.decode(json);
      if decoded.None? { return; }
      var preview := CreatePreview(c, PREVIEW_RENDERABLE_MESSAGES, json, decoded.value);
      PutPreview(key, snapshotHash, preview);
    }

    method PutPreview(key: string, snapshotHash: Hash, preview: Option<Preview>)
      modifies this`manifests
      ensures View() == Model.Backfill(c, old(View()), key, snapshotHash, preview)
    {
      if preview.None? { return; }
      if key in manifests && manifests[key].hash == snapshotHash && manifests[key].preview.None? {
        var current := manifests[key];
        manifests := manifests[key := current.(preview := preview, byteSize := current.byteSize + c.bytes(preview.value.json))];
      }
    }

    /** The first half of `prune`: what to evict, of the manifests it read. */
    method ChooseEvicted(list: seq<Manifest>) returns (evicted: seq<Manifest>)
      ensures (set m | m in evicted :: m.key) == Evicted(limits, list)
    {
      evicted := [];
      var retainedBytes, index := 0, 0;
      while index < |list|
        invariant 0 <= index <= |list|
        invariant retainedBytes == RetainedBytes(limits, list, index)
        invariant forall m :: m in evicted <==> exists i :: 0 <= i < index && !Retains(limits, list, i) && list[i] == m
      {
        var manifest := list[index];
        if index < limits.maxSessions && retainedBytes + manifest.byteSize <= limits.maxBytes {
          retainedBytes := retainedBytes + manifest.byteSize;
        } else {
          evicted := evicted + [manifest];
        }
        index := index + 1;
      }
    }

    /** The second half of `prune`. */
    method Evict(evicted: seq<Manifest>)
      modifies this
      ensures View() == Model.Evict(old(View()), set m | m in evicted :: m.key)
    {
      var i := 0;
      while i < |evicted|
        invariant 0 <= i <= |evicted|
        invariant View() == Model.Evict(old(View()), set m | m in evicted[..i] :: m.key)
      {
        EvictOneMore(old(View()), evicted, i);
        manifests := manifests - {evicted[i].key};
        snapshots := snapshots - {evicted[i].key};
        i := i + 1;
      }
      assert evicted[..i] == evicted;
    }
  }
}
