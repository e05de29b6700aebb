/**
 Any interleaving of the cache's transactions: saves, loads, touches, preview backfills and prunes
 overlap freely; what one read, it may act on much later.
 */
module SessionCacheRuns {
  import opened Wrappers
  import opened SessionCacheModel

  datatype Saved = Saved(json: Json, hash: Hash, messageHashes: seq<Hash>)

  /**
   `last` is the last save of each key; `evictions`, `refusals` and `observed` are what suspended prunes
   and loads hold.
   */
  datatype Cache = Cache(
    db: Stores,
    last: map<string, Saved>,
    evictions: map<nat, set<string>>,
    refusals: map<nat, string>,
    observed: set<(string, Loaded)>)

  datatype Action =
    | SaveTx(key: string, json: Json, hash: Hash, messageHashes: seq<Hash>)
    | LoadTx(task: nat, key: string)
    | LoadRemoveTx(task: nat)
    | RemoveTx(key: string)
    | TouchTx(key: string)
    | BackfillTx(key: string, loaded: Loaded)
    | PruneReadTx(task: nat, list: seq<Manifest>)
    | PruneWriteTx(task: nat)

  function Act(c: Codec, l: Limits, s: Cache, step: Step<Action>): Cache {
    match step.action
    case SaveTx(key, json, hash, messageHashes) =>
      if c.decode(json).None? then s
      else s.(db := Save(c, s.db, key, json, hash, messageHashes, step.now), last := s.last[key := Saved(json, hash, messageHashes)])
    case LoadTx(task, key) =>
      if LoadRefuses(c, s.db, key) then s.(refusals := s.refusals[task := key])
      else if Load(c, s.db, key).None? then s
      else s.(observed := s.observed + {(key, Load(c, s.db, key).value)})
    case LoadRemoveTx(task) =>
      if task in s.refusals then s.(db := Remove(s.db, s.refusals[task]), refusals := s.refusals - {task}) else s
    case RemoveTx(key) => s.(db := Remove(s.db, key))
    case TouchTx(key) => s.(db := Touch(s.db, key, step.now))
    case BackfillTx(key, loaded) => s.(db := Backfill(c, s.db, key, loaded.hash, PreviewOf(c, loaded.json)))
    case PruneReadTx(task, list) => s.(evictions := s.evictions[task := Evicted(l, list)])
    case PruneWriteTx(task) =>
      if task in s.evictions then s.(db := Evict(s.db, s.evictions[task]), evictions := s.evictions - {task}) else s
  }

  /** Backfills follow loads, each load and each prune is a task of its own, and a prune lists what is there. */
  ghost predicate Enabled(s: Cache, step: Step<Action>) {
    && (step.action.LoadTx? ==> step.action.task !in s.refusals)
    && (step.action.BackfillTx? ==> (step.action.key, step.action.loaded) in s.observed)
    && (step.action.PruneReadTx? ==> step.action.task !in s.evictions && Listing(s.db, step.action.list))
  }

  // ---- The invariant -------------------------------------------------------------------------

  /** A stored preview is that of the snapshot, or of a state with the snapshot's hash. */
  ghost predicate PreviewFits(c: Codec, m: Manifest, snapshot: Json) {
    m.preview.Some? ==>
      exists json :: PreviewOf(c, json) == m.preview && (json == snapshot || c.hash(json) == m.hash)
  }

  ghost predicate EntryOk(c: Codec, s: Cache, key: string)
    requires key in s.db.manifests
  {
    var m := s.db.manifests[key];
    && m.key == key && key in s.db.snapshots && key in s.last
    && s.db.snapshots[key] == s.last[key].json
    && m.hash == s.last[key].hash && m.messageHashes == s.last[key].messageHashes
    && m.byteSize == c.bytes(s.db.snapshots[key]) + PreviewBytes(c, m.preview)
    && PreviewFits(c, m, s.db.snapshots[key])
  }

  ghost predicate CacheInv(c: Codec, s: Cache) {
    && s.db.manifests.Keys == s.db.snapshots.Keys
    && (forall key {:trigger EntryOk(c, s, key)} | key in s.db.manifests :: EntryOk(c, s, key))
    && (forall seen | seen in s.observed :: c.hash(seen.1.json) == seen.1.hash)
  }

  ghost predicate StepsTo(c: Codec, l: Limits, s: Cache, step: Step<Action>, t: Cache) {
    Enabled(s, step) && t == Act(c, l, s, step)
  }

  /** A run starts from any cache in order: an earlier version of the program may have left entries without previews. */
  ghost predicate StepAt(c: Codec, l: Limits, trace: seq<Cache>, steps: seq<Step<Action>>, i: nat)
    requires |trace| == |steps| + 1 && i < |steps|
  {
    StepsTo(c, l, trace[i], steps[i], trace[i + 1])
  }

  ghost predicate Run(c: Codec, l: Limits, trace: seq<Cache>, steps: seq<Step<Action>>) {
    && |trace| == |steps| + 1
    && CacheInv(c, trace[0])
    && forall i: nat {:trigger StepAt(c, l, trace, steps, i)} | i < |steps| :: StepAt(c, l, trace, steps, i)
  }

  const NewCache := Cache(Stores(map[], map[]), map[], map[], map[], {})

  lemma NewCacheIsInOrder(c: Codec)
    ensures CacheInv(c, NewCache)
  {
  }

  lemma SaveKeeps(c: Codec, l: Limits, s: Cache, step: Step<Action>)
    requires CacheInv(c, s) && step.action.SaveTx?
    ensures CacheInv(c, Act(c, l, s, step))
  {
    var t := Act(c, l, s, step);
    forall key | key in t.db.manifests ensures EntryOk(c, t, key) {
      if key in s.db.manifests { assert EntryOk(c, s, key); }
    }
  }

  lemma EvictKeeps(c: Codec, s: Cache, keys: set<string>, t: Cache)
    requires CacheInv(c, s) && t.db == Evict(s.db, keys) && t.last == s.last && t.observed == s.observed
    ensures CacheInv(c, t)
  {
    forall key | key in t.db.manifests ensures EntryOk(c, t, key) { assert EntryOk(c, s, key); }
  }

  lemma TouchKeeps(c: Codec, s: Cache, key: string, now: Millis)
    requires CacheInv(c, s)
    ensures CacheInv(c, s.(db := Touch(s.db, key, now)))
  {
    var t := s.(db := Touch(s.db, key, now));
    forall k | k in t.db.manifests ensures EntryOk(c, t, k) { assert EntryOk(c, s, k); }
  }

  lemma BackfillKeeps(c: Codec, l: Limits, s: Cache, step: Step<Action>)
    requires CacheInv(c, s) && Enabled(s, step) && step.action.BackfillTx?
    ensures CacheInv(c, Act(c, l, s, step))
  {
    var t := Act(c, l, s, step);
    forall k | k in t.db.manifests ensures EntryOk(c, t, k) { assert EntryOk(c, s, k); }
  }

  lemma ActKeeps(c: Codec, l: Limits, s: Cache, step: Step<Action>)
    requires CacheInv(c, s) && Enabled(s, step)
    ensures CacheInv(c, Act(c, l, s, step))
  {
    match step.action
    case SaveTx(_, _, _, _) => SaveKeeps(c, l, s, step);
    case LoadTx(_, _) => SameStoresKeep(c, s, Act(c, l, s, step));
    case LoadRemoveTx(task) => if task in s.refusals { EvictKeeps(c, s, {s.refusals[task]}, Act(c, l, s, step)); }
    case RemoveTx(key) => EvictKeeps(c, s, {key}, Act(c, l, s, step));
    case TouchTx(key) => TouchKeeps(c, s, key, step.now);
    case BackfillTx(_, _) => BackfillKeeps(c, l, s, step);
    case PruneReadTx(_, _) => SameStoresKeep(c, s, Act(c, l, s, step));
    case PruneWriteTx(task) => if task in s.evictions { EvictKeeps(c, s, s.evictions[task], Act(c, l, s, step)); }
  }

  lemma SameStoresKeep(c: Codec, s: Cache, t: Cache)
    requires CacheInv(c, s) && t.db == s.db && t.last == s.last
    requires forall seen | seen in t.observed :: c.hash(seen.1.json) == seen.1.hash
    ensures CacheInv(c, t)
  {
    forall key | key in t.db.manifests ensures EntryOk(c, t, key) { assert EntryOk(c, s, key); }
  }

  lemma {:induction false} RunKeepsInv(c: Codec, l: Limits, trace: seq<Cache>, steps: seq<Step<Action>>, i: nat)
    requires Run(c, l, trace, steps) && i < |trace|
    ensures CacheInv(c, trace[i])
    decreases i
  {
    if i > 0 {
      RunKeepsInv(c, l, trace, steps, i - 1);
      assert StepAt(c, l, trace, steps, i - 1);
      ActKeeps(c, l, trace[i - 1], steps[i - 1]);
    }
  }

  // ---- What follows --------------------------------------------------------------------------

  /** At every moment both stores hold the same keys, and each entry is whole: one save's hash, snapshot and size. */
  lemma StoresAlwaysAgree(c: Codec, l: Limits, trace: seq<Cache>, steps: seq<Step<Action>>, n: nat)
    requires Run(c, l, trace, steps) && n < |trace|
    ensures trace[n].db.manifests.Keys == trace[n].db.snapshots.Keys
    ensures forall key | key in trace[n].db.manifests ::
              var m, last := trace[n].db.manifests[key], trace[n].last;
              && key in last && trace[n].db.snapshots[key] == last[key].json
              && m.hash == last[key].hash && m.messageHashes == last[key].messageHashes
              && m.byteSize == c.bytes(last[key].json) + PreviewBytes(c, m.preview)
  {
    RunKeepsInv(c, l, trace, steps, n);
    forall key | key in trace[n].db.manifests ensures EntryOk(c, trace[n], key) {}
  }

  /** What a load returns is what was last saved when it read. */
  lemma LoadReturnsTheLastSave(c: Codec, l: Limits, trace: seq<Cache>, steps: seq<Step<Action>>, n: nat, key: string)
    requires Run(c, l, trace, steps) && n < |trace|
    ensures Load(c, trace[n].db, key).Some? ==>
              && key in trace[n].last
              && Load(c, trace[n].db, key) == Some(Loaded(trace[n].last[key].json, trace[n].last[key].hash, trace[n].last[key].messageHashes))
  {
    RunKeepsInv(c, l, trace, steps, n);
    if key in trace[n].db.manifests { assert EntryOk(c, trace[n], key); }
  }

  /** A load refuses, of what is there when it reads, exactly what was saved under another hash or number of messages. */
  lemma LoadRefusesIff(c: Codec, l: Limits, trace: seq<Cache>, steps: seq<Step<Action>>, n: nat, key: string)
    requires Run(c, l, trace, steps) && n < |trace|
    ensures LoadRefuses(c, trace[n].db, key)
            <==> key in trace[n].db.manifests && key in trace[n].last && !Loadable(c, trace[n].last[key])
  {
    RunKeepsInv(c, l, trace, steps, n);
    if key in trace[n].db.manifests { assert EntryOk(c, trace[n], key); }
  }

  /** A load accepts what was saved like this. */
  predicate Loadable(c: Codec, saved: Saved) {
    && c.decode(saved.json).Some? && c.hash(saved.json) == saved.hash
    && |c.decode(saved.json).value| == |saved.messageHashes|
  }

  // ---- The late removal ----------------------------------------------------------------------

  /** The step leaves a new state under the key. */
  predicate Saves(c: Codec, step: Step<Action>, key: string) {
    step.action.SaveTx? && step.action.key == key && c.decode(step.action.json).Some?
  }

  predicate SavesLoadable(c: Codec, step: Step<Action>, key: string) {
    Saves(c, step, key) && Loadable(c, Saved(step.action.json, step.action.hash, step.action.messageHashes))
  }

  /** The step deletes the key. */
  predicate Drops(s: Cache, step: Step<Action>, key: string) {
    match step.action
    case RemoveTx(k) => k == key
    case LoadRemoveTx(task) => task in s.refusals && s.refusals[task] == key
    case PruneWriteTx(task) => task in s.evictions && key in s.evictions[task]
    case _ => false
  }

  /** The `k`-th step saved a state that a load accepts, and nothing replaced or deleted it up to `j`. */
  ghost predicate LoadableSince(c: Codec, trace: seq<Cache>, steps: seq<Step<Action>>, k: nat, j: nat, key: string)
    requires |trace| == |steps| + 1 && k < j <= |steps|
  {
    SavesLoadable(c, steps[k], key) && forall m | k < m < j :: !Saves(c, steps[m], key) && !Drops(trace[m], steps[m], key)
  }

  /** Nothing that a load looks at is changed. */
  ghost predicate EntryLeft(db: Stores, t: Stores, key: string) {
    && (key in t.manifests <==> key in db.manifests) && (key in t.snapshots <==> key in db.snapshots)
    && (key in t.snapshots ==> t.snapshots[key] == db.snapshots[key])
    && (key in t.manifests ==>
          t.manifests[key].hash == db.manifests[key].hash && t.manifests[key].messageHashes == db.manifests[key].messageHashes)
  }

  lemma OtherStepLeavesEntry(c: Codec, l: Limits, s: Cache, step: Step<Action>, key: string)
    requires !Saves(c, step, key) && !Drops(s, step, key)
    ensures EntryLeft(s.db, Act(c, l, s, step).db, key)
  {
    match step.action
    case SaveTx(k, json, hash, messageHashes) => if c.decode(json).Some? { OtherSaveLeavesEntry(c, s.db, step.action, step.now, key); }
    case BackfillTx(k, loaded) => BackfillLeavesEntry(c, s.db, k, loaded.hash, PreviewOf(c, loaded.json), key);
    case TouchTx(k) => TouchLeavesEntry(s.db, k, step.now, key);
    case _ => OtherDeletionLeavesEntry(c, l, s, step, key);
  }

  lemma BackfillLeavesEntry(c: Codec, db: Stores, k: string, snapshotHash: Hash, preview: Option<Preview>, key: string)
    ensures EntryLeft(db, Backfill(c, db, k, snapshotHash, preview), key)
  {
  }

  lemma TouchLeavesEntry(db: Stores, k: string, now: Millis, key: string)
    ensures EntryLeft(db, Touch(db, k, now), key)
  {
  }

  lemma OtherDeletionLeavesEntry(c: Codec, l: Limits, s: Cache, step: Step<Action>, key: string)
    requires !Drops(s, step, key) && !step.action.SaveTx? && !step.action.BackfillTx? && !step.action.TouchTx?
    ensures EntryLeft(s.db, Act(c, l, s, step).db, key)
  {
  }

  lemma OtherSaveLeavesEntry(c: Codec, db: Stores, action: Action, now: Millis, key: string)
    requires action.SaveTx? && c.decode(action.json).Some? && action.key != key
    ensures EntryLeft(db, Save(c, db, action.key, action.json, action.hash, action.messageHashes, now), key)
  {
  }

  lemma StepDecidesLoad(c: Codec, l: Limits, s: Cache, step: Step<Action>, key: string, t: Cache)
    requires t == Act(c, l, s, step)
    ensures Saves(c, step, key) ==> (Load(c, t.db, key).Some? <==> SavesLoadable(c, step, key))
    ensures Drops(s, step, key) ==> Load(c, t.db, key).None?
    ensures !Saves(c, step, key) && !Drops(s, step, key) ==> (Load(c, t.db, key).Some? <==> Load(c, s.db, key).Some?)
  {
    if !Saves(c, step, key) && !Drops(s, step, key) { OtherStepLeavesEntry(c, l, s, step, key); }
  }

  ghost predicate SomeLoadableSince(c: Codec, trace: seq<Cache>, steps: seq<Step<Action>>, i: nat, j: nat, key: string)
    requires |trace| == |steps| + 1 && j <= |steps|
  {
    exists k: nat :: i <= k < j && LoadableSince(c, trace, steps, k, j, key)
  }

  lemma OneMoreStep(c: Codec, trace: seq<Cache>, steps: seq<Step<Action>>, i: nat, n: nat, key: string)
    requires |trace| == |steps| + 1 && i <= n < |steps|
    ensures SomeLoadableSince(c, trace, steps, i, n + 1, key)
            <==> || SavesLoadable(c, steps[n], key)
                 || (!Saves(c, steps[n], key) && !Drops(trace[n], steps[n], key) && SomeLoadableSince(c, trace, steps, i, n, key))
  {
    if SavesLoadable(c, steps[n], key) {
      assert LoadableSince(c, trace, steps, n, n + 1, key);
    } else if SomeLoadableSince(c, trace, steps, i, n + 1, key) {
      var k: nat :| i <= k < n + 1 && LoadableSince(c, trace, steps, k, n + 1, key);
      assert LoadableSince(c, trace, steps, k, n, key);
    } else if !Saves(c, steps[n], key) && !Drops(trace[n], steps[n], key) {
      forall k: nat | i <= k < n ensures !LoadableSince(c, trace, steps, k, n, key) {
        assert !LoadableSince(c, trace, steps, k, n + 1, key);
      }
    }
  }

  /** From a moment when a load would not accept the key: it does later exactly if a loadable state was saved and is still there. */
  lemma {:induction false} LoadableIff(c: Codec, l: Limits, trace: seq<Cache>, steps: seq<Step<Action>>, i: nat, j: nat, key: string)
    requires Run(c, l, trace, steps) && i <= j <= |steps| && Load(c, trace[i].db, key).None?
    ensures Load(c, trace[j].db, key).Some? <==> SomeLoadableSince(c, trace, steps, i, j, key)
    decreases j
  {
    if i < j {
      var n := j - 1;
      LoadableIff(c, l, trace, steps, i, n, key);
      assert StepAt(c, l, trace, steps, n);
      StepDecidesLoad(c, l, trace[n], steps[n], key, trace[j]);
      OneMoreStep(c, trace, steps, i, n, key);
    }
  }

  lemma {:induction false} TasksStay(c: Codec, l: Limits, trace: seq<Cache>, steps: seq<Step<Action>>, i: nat, j: nat, task: nat)
    requires Run(c, l, trace, steps) && i <= j <= |steps|
    ensures task in trace[i].refusals && (forall m | i <= m < j :: steps[m].action != LoadRemoveTx(task)) ==>
              task in trace[j].refusals && trace[j].refusals[task] == trace[i].refusals[task]
    ensures task in trace[i].evictions && (forall m | i <= m < j :: steps[m].action != PruneWriteTx(task)) ==>
              task in trace[j].evictions && trace[j].evictions[task] == trace[i].evictions[task]
    decreases j
  {
    if i < j {
      TasksStay(c, l, trace, steps, i, j - 1, task);
      assert StepAt(c, l, trace, steps, j - 1);
    }
  }

  /**
   The removal of a refusing load comes in a transaction of its own. It deletes the key; and what it
   deletes could be loaded if and only if, since the load read, a loadable state was saved under the
   key and is still there.
   */
  lemma LateRemovalDropsLoadableIff(
    c: Codec, l: Limits, trace: seq<Cache>, steps: seq<Step<Action>>, i: nat, j: nat, task: nat, key: string)
    requires Run(c, l, trace, steps) && i < j < |steps|
    requires steps[i].action == LoadTx(task, key) && LoadRefuses(c, trace[i].db, key)
    requires steps[j].action == LoadRemoveTx(task) && forall m | i < m < j :: steps[m].action != LoadRemoveTx(task)
    ensures key !in trace[j + 1].db.manifests && key !in trace[j + 1].db.snapshots
    ensures Load(c, trace[j].db, key).Some?
            <==> SomeLoadableSince(c, trace, steps, i + 1, j, key)
  {
    assert StepAt(c, l, trace, steps, i) && StepAt(c, l, trace, steps, j);
    TasksStay(c, l, trace, steps, i + 1, j, task);
    LoadableIff(c, l, trace, steps, i + 1, j, key);
  }

  /** What the write of a prune deletes was decided when it listed the entries, whatever was saved since. */
  lemma LatePruneDropsIff(
    c: Codec, l: Limits, trace: seq<Cache>, steps: seq<Step<Action>>, i: nat, j: nat, task: nat, list: seq<Manifest>, key: string)
    requires Run(c, l, trace, steps) && i < j < |steps| && key in trace[j].db.manifests
    requires steps[i].action == PruneReadTx(task, list)
    requires steps[j].action == PruneWriteTx(task) && forall m | i < m < j :: steps[m].action != PruneWriteTx(task)
    ensures key !in trace[j + 1].db.manifests <==> key in Evicted(l, list)
  {
    assert StepAt(c, l, trace, steps, i) && StepAt(c, l, trace, steps, j);
    TasksStay(c, l, trace, steps, i + 1, j, task);
  }

  // ---- Inputs --------------------------------------------------------------------------------

  lemma FourSteps(c: Codec, l: Limits, trace: seq<Cache>, steps: seq<Step<Action>>)
    requires |steps| == 4 && |trace| == 5 && CacheInv(c, trace[0])
    requires StepsTo(c, l, trace[0], steps[0], trace[1]) && StepsTo(c, l, trace[1], steps[1], trace[2])
    requires StepsTo(c, l, trace[2], steps[2], trace[3]) && StepsTo(c, l, trace[3], steps[3], trace[4])
    ensures Run(c, l, trace, steps)
  {
    assert StepAt(c, l, trace, steps, 0) && StepAt(c, l, trace, steps, 1);
    assert StepAt(c, l, trace, steps, 2) && StepAt(c, l, trace, steps, 3);
  }

  /** A state is saved under a wrong hash and refused by a load; saved under its own hash; and deleted by that load. */
  lemma LateRemovalDropsALoadableState(c: Codec, l: Limits, key: string, json: Json, messageHashes: seq<Hash>)
    returns (trace: seq<Cache>)
    requires c.decode(json).Some? && |c.decode(json).value| == |messageHashes|
    ensures Run(c, l, trace, [Step(SaveTx(key, json, c.hash(json) + 1, messageHashes), 1), Step(LoadTx(0, key), 2),
                              Step(SaveTx(key, json, c.hash(json), messageHashes), 3), Step(LoadRemoveTx(0), 4)])
    ensures Load(c, trace[3].db, key) == Some(Loaded(json, c.hash(json), messageHashes)) && key !in trace[4].db.manifests
  {
    var steps := [Step(SaveTx(key, json, c.hash(json) + 1, messageHashes), 1), Step(LoadTx(0, key), 2),
                  Step(SaveTx(key, json, c.hash(json), messageHashes), 3), Step(LoadRemoveTx(0), 4)];
    var saved := Act(c, l, NewCache, steps[0]);
    var read := Act(c, l, saved, steps[1]);
    assert read == saved.(refusals := map[0 := key]);
    var again := Act(c, l, read, steps[2]);
    NewCacheIsInOrder(c);
    trace := [NewCache, saved, read, again, Act(c, l, again, steps[3])];
    FourSteps(c, l, trace, steps);
  }

  /** A cache that holds nothing but one entry, saved under hash 0. */
  function Holding(m: Manifest, json: Json, evictions: map<nat, set<string>>): Cache {
    Cache(Stores(map[m.key := m], map[m.key := json]), map[m.key := Saved(json, 0, [])], evictions, map[], {})
  }

  lemma SavesOnly(c: Codec, l: Limits, s: Cache, json: Json, m: Manifest)
    requires c.decode(json).Some? && s.refusals == map[] && s.observed == {}
    requires s.db.manifests.Keys <= {m.key} && s.db.snapshots.Keys <= {m.key} && s.last.Keys <= {m.key}
    requires m.hash == 0 && m.messageHashes == [] && m.preview == PreviewOf(c, json)
    requires m.byteSize == c.bytes(json) + PreviewBytes(c, m.preview)
    ensures StepsTo(c, l, s, Step(SaveTx(m.key, json, 0, []), m.lastAccessedAt), Holding(m, json, s.evictions))
  {
    PutsOnly(c, s, json, m);
  }

  lemma PutsOnly(c: Codec, s: Cache, json: Json, m: Manifest)
    requires s.db.manifests.Keys <= {m.key} && s.db.snapshots.Keys <= {m.key} && s.last.Keys <= {m.key}
    requires m.hash == 0 && m.messageHashes == [] && m.byteSize == c.bytes(json) + PreviewBytes(c, m.preview)
    ensures Put(c, s.db, m.key, json, (0, []), m.preview, m.lastAccessedAt) == Holding(m, json, s.evictions).db
    ensures s.last[m.key := Saved(json, 0, [])] == Holding(m, json, s.evictions).last
  {
  }

  lemma ListsBeyondBudget(c: Codec, l: Limits, m: Manifest, json: Json)
    requires m.byteSize > l.maxBytes
    ensures StepsTo(c, l, Holding(m, json, map[]), Step(PruneReadTx(0, [m]), 2), Holding(m, json, map[0 := {m.key}]))
  {
    assert !Retains(l, [m], 0) && [m][0].key == m.key;
    assert Evicted(l, [m]) == {m.key};
  }

  lemma PrunesIt(c: Codec, l: Limits, m: Manifest, json: Json)
    ensures var t := Act(c, l, Holding(m, json, map[0 := {m.key}]), Step(PruneWriteTx(0), 4));
            StepsTo(c, l, Holding(m, json, map[0 := {m.key}]), Step(PruneWriteTx(0), 4), t) && t.db.manifests == map[]
  {
    assert map[m.key := m] - {m.key} == map[];
  }

  /**
   A state beyond the budget is listed by a prune; replaced by one within it, which a prune would keep;
   and that one, all there is, is deleted.
   */
  lemma LatePruneDropsTheNewest(c: Codec, l: Limits, big: Json, small: Json, m: Manifest, k: Manifest)
    requires c.decode(big).Some? && c.decode(small).Some? && l.maxSessions > 0 && k.byteSize <= l.maxBytes < m.byteSize
    requires m == Manifest(m.key, 0, [], PreviewOf(c, big), c.bytes(big) + PreviewBytes(c, m.preview), 1)
    requires k == Manifest(m.key, 0, [], PreviewOf(c, small), c.bytes(small) + PreviewBytes(c, k.preview), 3)
    ensures var listed, saved := Holding(m, big, map[0 := {m.key}]), Holding(k, small, map[0 := {m.key}]);
            && StepsTo(c, l, NewCache, Step(SaveTx(m.key, big, 0, []), 1), Holding(m, big, map[]))
            && StepsTo(c, l, Holding(m, big, map[]), Step(PruneReadTx(0, [m]), 2), listed)
            && StepsTo(c, l, listed, Step(SaveTx(m.key, small, 0, []), 3), saved)
            && StepsTo(c, l, saved, Step(PruneWriteTx(0), 4), Act(c, l, saved, Step(PruneWriteTx(0), 4)))
            && saved.db.manifests == map[m.key := k] && Act(c, l, saved, Step(PruneWriteTx(0), 4)).db.manifests == map[]
  {
    SavesOnly(c, l, NewCache, big, m);
    ListsBeyondBudget(c, l, m, big);
    SavesOnly(c, l, Holding(m, big, map[0 := {m.key}]), small, k);
    PrunesIt(c, l, k, small);
  }

  /** With a hash that tells states apart, the preview shown is that of the last saved state. */
  lemma PreviewIsOfTheLastSave(c: Codec, l: Limits, trace: seq<Cache>, steps: seq<Step<Action>>, n: nat, key: string)
    requires Run(c, l, trace, steps) && n < |trace| && LoadPreview(c, trace[n].db, key).Some?
    requires forall x, y | c.hash(x) == c.hash(y) :: x == y
    requires forall k | k in trace[n].last :: trace[n].last[k].hash == c.hash(trace[n].last[k].json)
    ensures key in trace[n].last
    ensures var last, shown := trace[n].last[key], LoadPreview(c, trace[n].db, key).value;
            && shown.0 == last.hash
            && PreviewOf(c, last.json).Some? && PreviewOf(c, last.json).value.json == shown.1
  {
    RunKeepsInv(c, l, trace, steps, n);
    assert EntryOk(c, trace[n], key);
  }

  // ---- Previews ------------------------------------------------------------------------------

  /** The renderable messages from `start` on. */
  function CountRenderable(messages: seq<Message>, start: nat, upTo: nat): nat
    requires start <= upTo <= |messages|
    decreases upTo - start
  {
    if start == upTo then 0 else CountRenderable(messages, start, upTo - 1) + (if Renderable(messages, upTo - 1) then 1 else 0)
  }

  lemma {:induction false} StartsCount(messages: seq<Message>, upTo: nat, room: nat, i: nat)
    requires upTo <= |messages| && i < |Starts(messages, upTo, room)|
    ensures CountRenderable(messages, Starts(messages, upTo, room)[i], upTo) == i + 1
    decreases upTo
  {
    var starts := Starts(messages, upTo, room);
    if Renderable(messages, upTo - 1) {
      if i > 0 {
        StartsCount(messages, upTo - 1, room - 1, i - 1);
        assert starts[i] == Starts(messages, upTo - 1, room - 1)[i - 1];
      } else {
        assert starts[0] == upTo - 1;
        assert CountRenderable(messages, upTo - 1, upTo - 1) == 0;
      }
    } else {
      StartsCount(messages, upTo - 1, room, i);
    }
  }

  lemma {:induction false} StartsMissNone(messages: seq<Message>, upTo: nat, room: nat)
    requires upTo <= |messages| && room > 0 && Starts(messages, upTo, room) == []
    ensures forall i: nat | i < upTo :: !Renderable(messages, i)
    decreases upTo
  {
    if upTo > 0 { StartsMissNone(messages, upTo - 1, room); }
  }

  ghost predicate SomethingRenders(messages: seq<Message>) {
    exists i: nat :: i < |messages| && Renderable(messages, i)
  }

  /** Starts with something rendered, with at most `room` of those from there on; or is everything. */
  ghost predicate GoodStart(messages: seq<Message>, room: nat, start: nat) {
    if SomethingRenders(messages) then
      start < |messages| && Renderable(messages, start) && 1 <= CountRenderable(messages, start, |messages|) <= room
    else start == 0
  }

  lemma CandidateIsGood(messages: seq<Message>, room: nat, i: nat)
    requires room > 0 && i < |Candidates(messages, room)|
    ensures GoodStart(messages, room, Candidates(messages, room)[i])
  {
    if Starts(messages, |messages|, room) == [] {
      StartsMissNone(messages, |messages|, room);
    } else {
      StartsCount(messages, |messages|, room, i);
    }
  }

  /** A preview fits; if anything can be rendered it starts with something rendered and holds at most 50 of those. */
  lemma PreviewFitsAndRenders(c: Codec, room: nat, json: Json, messages: seq<Message>)
    requires room > 0 && CreatePreview(c, room, json, messages).Some?
    ensures var preview := CreatePreview(c, room, json, messages).value;
            && c.bytes(preview.json) <= MAX_PREVIEW_BYTES && preview.hash == c.hash(preview.json)
            && exists start: nat :: preview.json == c.slice(json, start) && GoodStart(messages, room, start)
  {
    var starts := Candidates(messages, room);
    var count := FirstFit(c, json, starts, |starts|).value;
    CandidateIsGood(messages, room, count - 1);
    assert CreatePreview(c, room, json, messages).value.json == c.slice(json, starts[count - 1]);
  }

  lemma {:induction false} LastTried(c: Codec, json: Json, starts: seq<nat>, count: nat)
    requires 0 < count <= |starts| && FirstFit(c, json, starts, count).None?
    ensures c.bytes(c.slice(json, starts[0])) > MAX_PREVIEW_BYTES
    decreases count
  {
    if count > 1 { LastTried(c, json, starts, Fewer(count)); }
  }

  /** There is no preview only if even the shortest candidate, from the last renderable message, is too long. */
  lemma NoPreviewOnlyIfNothingFits(c: Codec, room: nat, json: Json, messages: seq<Message>)
    requires room > 0 && CreatePreview(c, room, json, messages).None?
    ensures var shortest := Candidates(messages, room)[0];
            && c.bytes(c.slice(json, shortest)) > MAX_PREVIEW_BYTES
            && (forall i: nat | shortest < i < |messages| :: !Renderable(messages, i))
  {
    LastTried(c, json, Candidates(messages, room), |Candidates(messages, room)|);
    FirstStartIsLast(messages, |messages|, room);
  }

  lemma {:induction false} FirstStartIsLast(messages: seq<Message>, upTo: nat, room: nat)
    requires upTo <= |messages| && room > 0
    ensures var starts := Starts(messages, upTo, room);
            forall i: nat | (if starts == [] then 0 else starts[0] + 1) <= i < upTo :: !Renderable(messages, i)
    decreases upTo
  {
    if upTo > 0 { FirstStartIsLast(messages, upTo - 1, room); }
  }

  // ---- Budget --------------------------------------------------------------------------------

  function Kept(l: Limits, list: seq<Manifest>, n: nat): seq<Manifest>
    requires n <= |list|
  {
    if n == 0 then [] else Kept(l, list, n - 1) + (if Retains(l, list, n - 1) then [list[n - 1]] else [])
  }

  function TotalBytes(list: seq<Manifest>): nat {
    if list == [] then 0 else TotalBytes(list[..|list| - 1]) + list[|list| - 1].byteSize
  }

  lemma {:induction false} KeptFits(l: Limits, list: seq<Manifest>, n: nat)
    requires n <= |list|
    ensures |Kept(l, list, n)| <= n && |Kept(l, list, n)| <= l.maxSessions
    ensures TotalBytes(Kept(l, list, n)) == RetainedBytes(l, list, n)
    ensures forall m :: m in Kept(l, list, n) <==> exists i :: 0 <= i < n && Retains(l, list, i) && list[i] == m
    decreases n
  {
    if n > 0 {
      KeptFits(l, list, n - 1);
      var before := Kept(l, list, n - 1);
      if Retains(l, list, n - 1) {
        assert (before + [list[n - 1]])[..|before|] == before;
      } else {
        assert before + [] == before;
      }
    }
  }

  lemma {:induction false} KeptIsDistinct(l: Limits, list: seq<Manifest>, n: nat)
    requires n <= |list| && forall i, j | 0 <= i < j < |list| :: list[i].key != list[j].key
    ensures forall i, j | 0 <= i < j < |Kept(l, list, n)| :: Kept(l, list, n)[i].key != Kept(l, list, n)[j].key
    decreases n
  {
    if n > 0 {
      KeptIsDistinct(l, list, n - 1);
      KeptFits(l, list, n - 1);
      var before := Kept(l, list, n - 1);
      forall i | 0 <= i < |before| ensures before[i].key != list[n - 1].key {
        assert before[i] in before;
      }
    }
  }

  lemma EvictedIff(l: Limits, list: seq<Manifest>, i: nat)
    requires i < |list| && forall j, k | 0 <= j < k < |list| :: list[j].key != list[k].key
    ensures list[i].key in Evicted(l, list) <==> !Retains(l, list, i)
  {
    if list[i].key in Evicted(l, list) {
      var j :| 0 <= j < |list| && !Retains(l, list, j) && list[j].key == list[i].key;
      assert j == i;
    }
  }

  /** A prune without a write in between leaves at most `maxSessions` entries and `maxBytes` bytes, listed by `kept`. */
  lemma PruneMeetsTheBudget(l: Limits, db: Stores, list: seq<Manifest>) returns (kept: seq<Manifest>)
    requires Listing(db, list)
    ensures var after := Evict(db, Evicted(l, list)).manifests;
            && (forall m | m in kept :: m.key in after && after[m.key] == m)
            && (forall k | k in after :: after[k] in kept)
            && (forall i, j | 0 <= i < j < |kept| :: kept[i].key != kept[j].key)
    ensures |kept| <= l.maxSessions && TotalBytes(kept) <= l.maxBytes
  {
    kept := Kept(l, list, |list|);
    KeptFits(l, list, |list|);
    KeptIsDistinct(l, list, |list|);
    forall m | m in kept ensures m.key in db.manifests && db.manifests[m.key] == m && m.key !in Evicted(l, list) {
      var i :| 0 <= i < |list| && Retains(l, list, i) && list[i] == m;
      EvictedIff(l, list, i);
    }
    forall k | k in db.manifests && k !in Evicted(l, list) ensures db.manifests[k] in kept { UnevictedIsKept(l, db, list, k); }
  }

  lemma UnevictedIsKept(l: Limits, db: Stores, list: seq<Manifest>, k: string)
    requires Listing(db, list) && k in db.manifests && k !in Evicted(l, list)
    ensures db.manifests[k] in Kept(l, list, |list|)
  {
    var i :| 0 <= i < |list| && list[i] == db.manifests[k];
    assert list[i].key == k;
    EvictedIff(l, list, i);
    KeptFits(l, list, |list|);
  }

  /** Pruning keeps the most recently used entry whenever it fits at all. */
  lemma NewestIsKept(l: Limits, db: Stores, list: seq<Manifest>, key: string)
    requires Listing(db, list) && key in db.manifests && l.maxSessions > 0 && db.manifests[key].byteSize <= l.maxBytes
    requires forall k | k in db.manifests && k != key :: db.manifests[k].lastAccessedAt < db.manifests[key].lastAccessedAt
    ensures key !in Evicted(l, list)
  {
    var i :| 0 <= i < |list| && list[i] == db.manifests[key];
    assert list[0] in list;
    assert i == 0;
    EvictedIff(l, list, 0);
  }
}
