// The TTL- and LRU-bounded cache of per-conversation state, and what interleaved
// requests can see of each other through it.
module Caches {
  import opened Basics
  import opened BlobStores
  import opened Protocol

  const TTL: int := 30 * 60 * 1_000_000_000  // nanoseconds
  const MAX_CACHED: nat := 64

  // ---- what acquiring a conversation does to the recorded access times ----

  /** The entries that outlive the TTL sweep; the conversation being acquired always does. */
  function Unexpired(before: map<string, int>, id: string, now: int): map<string, int> {
    map k | k in before && (k == id || now - before[k] <= TTL) :: before[k]
  }

  function Live(before: map<string, int>, id: string, now: int): map<string, int> {
    Unexpired(before, id, now)[id := now]
  }

  ghost predicate Within<T>(a: map<string, T>, b: map<string, T>) {
    forall k :: k in a ==> k in b && a[k] == b[k]
  }

  lemma WithinUpdated<T>(a: map<string, T>, b: map<string, T>, k: string, v: T)
    requires Within(a, b)
    ensures Within(a[k := v], b[k := v])
  {
  }

  /** after is live cut down to the bound, least recently used first, sparing the acquired entry. */
  ghost predicate Trimmed(live: map<string, int>, id: string, after: map<string, int>) {
    && id in after
    && Within(after, live)
    && |after| == (if |live| <= MAX_CACHED then |live| else MAX_CACHED)
    && OldestGone(live, id, after)
  }

  ghost predicate OldestGone(live: map<string, int>, id: string, after: map<string, int>) {
    forall e, k :: e in live && e !in after && k in after && k in live && k != id ==> live[e] <= live[k]
  }

  lemma OldestGoesNext(live: map<string, int>, id: string, after: map<string, int>, key: string)
    requires Within(after, live) && OldestGone(live, id, after)
    requires key in after && forall k :: k in after && k != id ==> after[key] <= after[k]
    ensures Within(after - {key}, live) && OldestGone(live, id, after - {key})
  {
  }

  ghost predicate Acquired(before: map<string, int>, id: string, now: int, after: map<string, int>) {
    Trimmed(Live(before, id, now), id, after)
  }

  /** The bound holds, the acquired conversation is in and stamped, and whatever else survives was
      there before, unchanged, and within the TTL. */
  lemma SurvivorsAreFresh(before: map<string, int>, id: string, now: int, after: map<string, int>)
    requires Acquired(before, id, now, after)
    ensures |after| <= 64 && id in after && after[id] == now
    ensures forall k :: k in after && k != id ==>
              k in before && after[k] == before[k] && now - before[k] <= 1_800_000_000_000
  {
  }

  /** Nothing is evicted that was neither stale nor the least recently used. */
  lemma EvictedIsStaleOrOldest(before: map<string, int>, id: string, now: int, after: map<string, int>, e: string)
    requires Acquired(before, id, now, after) && e in before && e !in after
    ensures e != id
    ensures now - before[e] > 1_800_000_000_000 ||
            (|after| == 64 && forall k :: k in after && k != id ==> before[e] <= before[k])
  {
    var live := Live(before, id, now);
    if e in live {
      assert after.Keys <= live.Keys && e in live.Keys - after.Keys;
      assert |live.Keys| == |after.Keys| + |live.Keys - after.Keys|;
    }
  }

  /** Two outcomes of the same acquire, from different iteration orders, differ only where
      two entries had been used at the very same time. */
  lemma OrderMattersOnlyForTies(before: map<string, int>, id: string, now: int, a: map<string, int>,
        b: map<string, int>)
    requires Acquired(before, id, now, a) && Acquired(before, id, now, b) && a != b
    ensures exists j, k :: j in before && k in before && j != k && before[j] == before[k]
  {
    SubmapsDiffer(Live(before, id, now), a, b);
    var j, k := SetsDiffer(a.Keys, b.Keys);
    assert a[j] == before[j] && b[k] == before[k];
    assert before[k] <= before[j] <= before[k];
  }

  lemma SubmapsDiffer(m: map<string, int>, a: map<string, int>, b: map<string, int>)
    requires Within(a, m) && Within(b, m)
    requires a != b
    ensures a.Keys != b.Keys
  {
  }

  lemma SetsDiffer<T>(a: set<T>, b: set<T>) returns (j: T, k: T)
    requires |a| == |b| && a != b
    ensures j in a && j !in b && k in b && k !in a
  {
    assert |a - b| == |b - a| by {
      assert a == (a - b) + a * b && b == (b - a) + a * b;
    }
    var d :| d in a + b && !(d in a && d in b);
    assert if d in a then d in a - b else d in b - a;
    j :| j in a - b;
    k :| k in b - a;
  }

  class Entry {
    const blobs: BlobStore
    var checkpoint: Option<ConversationState>
    var lastAccess: int
    ghost const owner: string

    constructor (hash: Bytes -> Bytes, ghost owner: string, now: int)
      ensures fresh(blobs) && blobs.hash == hash && lastAccess == now && Pristine() && BelongsTo(owner)
    {
      this.owner := owner;
      blobs := new BlobStore(hash, owner);
      checkpoint, lastAccess := None, now;
    }

    ghost predicate Pristine()
      reads this, blobs
    {
      blobs.data == map[] && checkpoint == None
    }

    /** Entry and blob store were created for this conversation. */
    ghost predicate BelongsTo(id: string) {
      owner == id && blobs.owner == id
    }
  }

  class ConversationCache {
    const hash: Bytes -> Bytes
    var entries: map<string, Entry>
    ghost var times: map<string, int>  // the access times of the entries

    constructor (hash: Bytes -> Bytes)
      ensures Valid() && entries == map[] && this.hash == hash
    {
      this.hash, entries, times := hash, map[], map[];
    }

    /** Every conversation has its own entry and blob store; ids are never empty, clocks never read zero. */
    ghost predicate Valid()
      reads this, entries.Values
    {
      && entries.Keys == times.Keys && "" !in times
      && (forall k :: k in entries ==> entries[k].BelongsTo(k) && entries[k].lastAccess == times[k] > 0)
    }

    method Drop(key: string)
      requires Valid() && key in entries
      modifies this`entries, this`times
      ensures Valid() && times == old(times) - {key} && Within(entries, old(entries)) && |entries| == old(|entries|) - 1
    {
      assert |entries.Keys - {key}| == |entries.Keys| - 1;
      entries, times := entries - {key}, times - {key};
      assert |entries| == |entries.Keys|;
    }

    method DropStale(id: string, now: int)
      requires Valid()
      modifies this`entries, this`times
      ensures Valid() && Within(entries, old(entries)) && times == Unexpired(old(times), id, now)
    {
      ghost var before := times;
      var keys := entries.Keys;
      while keys != {}
        invariant Valid() && Within(entries, old(entries)) && keys <= times.Keys
        invariant Within(times, before)
        invariant forall k :: k in before && (k == id || now - before[k] <= TTL) ==> k in times
        invariant forall k :: k in times && k !in keys ==> k == id || now - before[k] <= TTL
        decreases |keys|
      {
        var key :| key in keys;
        keys := keys - {key};
        if key != id && now - entries[key].lastAccess > TTL {
          Drop(key);
        }
      }
    }

    /** The least recently used entry other than the acquired one; "" if there is none. */
    method Oldest(id: string) returns (oldestKey: string)
      requires Valid()
      ensures oldestKey == "" ==> entries.Keys <= {id}
      ensures oldestKey != "" ==> oldestKey in times && oldestKey != id
      ensures oldestKey != "" ==> forall k :: k in times && k != id ==> times[oldestKey] <= times[k]
    {
      oldestKey := "";
      var oldest := 0;
      var keys := entries.Keys;
      while keys != {}
        invariant keys <= entries.Keys
        invariant oldestKey == "" ==> oldest == 0 && forall k :: k in times && k !in keys ==> k == id
        invariant oldestKey != "" ==> oldestKey in times && oldestKey != id && oldest == times[oldestKey]
        invariant oldestKey != "" ==> forall k :: k in times && k !in keys && k != id ==> oldest <= times[k]
        decreases |keys|
      {
        var key :| key in keys;
        keys := keys - {key};
        if key != id && (oldest == 0 || entries[key].lastAccess < oldest) {
          oldestKey, oldest := key, entries[key].lastAccess;
        }
      }
    }

    method Shrink(id: string)
      requires Valid() && id in entries
      modifies this`entries, this`times
      ensures Valid() && Within(entries, old(entries)) && Trimmed(old(times), id, times)
    {
      ghost var live := times;
      assert |entries| == |entries.Keys| == |times.Keys| == |times|;
      while |entries| > MAX_CACHED
        invariant Valid() && id in times && Within(entries, old(entries)) && |entries| <= |live|
        invariant Within(times, live)
        invariant |entries| == |live| || |entries| >= MAX_CACHED
        invariant OldestGone(live, id, times)
        decreases |entries|
      {
        var oldestKey := Oldest(id);
        if oldestKey == "" {
          SubsetSize(entries.Keys, {id});
          break;
        }
        OldestGoesNext(live, id, times, oldestKey);
        Drop(oldestKey);
      }
      assert |entries| == |entries.Keys| == |times.Keys| == |times|;
    }

    /** The entry of a conversation, created when absent, stamped with the time. */
    method Touch(id: string, now: int) returns (entry: Entry)
      requires Valid() && id != "" && now > 0
      modifies this`entries, this`times, (if id in entries then {entries[id]} else {})`lastAccess
      ensures Valid() && entries == old(entries)[id := entry] && times == old(times)[id := now]
      ensures id in old(entries) ==> entry == old(entries)[id]
      ensures id !in old(entries) ==> fresh(entry) && fresh(entry.blobs) && entry.blobs.hash == hash && entry.Pristine()
    {
      if id in entries {
        entry := entries[id];
        entry.lastAccess := now;
      } else {
        entry := new Entry(hash, id, now);
        entries := entries[id := entry];
      }
      times := times[id := now];
    }

    method Refresh(id: string, now: int) returns (entry: Entry)
      requires Valid() && id != "" && now > 0
      modifies this`entries, this`times, (if id in entries then {entries[id]} else {})`lastAccess
      ensures Valid() && id in entries && entries[id] == entry && Within(entries, old(entries)[id := entry])
      ensures times == Live(old(times), id, now)
      ensures id in old(entries) ==> entry == old(entries)[id]
      ensures id !in old(entries) ==> fresh(entry) && fresh(entry.blobs) && entry.blobs.hash == hash && entry.Pristine()
    {
      DropStale(id, now);
      assert id in times <==> id in old(times);
      ghost var kept := entries;
      entry := Touch(id, now);
      WithinUpdated(kept, old(entries), id, entry);
    }

    method Acquire(id: string, now: int) returns (entry: Entry)
      requires Valid() && id != "" && now > 0
      modifies this`entries, this`times, (if id in entries then {entries[id]} else {})`lastAccess
      ensures Valid() && id in entries && entries[id] == entry && Within(entries, old(entries)[id := entry])
      ensures Acquired(old(times), id, now, times)
      ensures id in old(entries) ==> entry == old(entries)[id]
      ensures id !in old(entries) ==> fresh(entry) && fresh(entry.blobs) && entry.blobs.hash == hash && entry.Pristine()
    {
      entry := Refresh(id, now);
      Shrink(id);
    }

    /** Recorded only if the conversation is still cached. */
    method StoreCheckpoint(id: string, checkpoint: Option<ConversationState>, now: int)
      requires Valid() && now > 0
      modifies this`times, if id in entries then {entries[id]} else {}
      ensures Valid()
      ensures id in entries ==>
        entries[id].checkpoint == if checkpoint.Some? then checkpoint else old(entries[id].checkpoint)
      ensures times == if checkpoint.Some? && id in entries then old(times)[id := now] else old(times)
    {
      if checkpoint.None? {
        return;
      }
      if id !in entries {
        return;
      }
      entries[id].checkpoint := checkpoint;
      entries[id].lastAccess := now;
      times := times[id := now];
    }
  }

  // ---- an acquired entry, seen from outside ----

  ghost function StoreOf(cache: ConversationCache, id: string): Store
    reads cache, if id in cache.entries then {cache.entries[id].blobs} else {}
  {
    if id in cache.entries then cache.entries[id].blobs.data else map[]
  }

  ghost function CheckpointOf(cache: ConversationCache, id: string): Option<ConversationState>
    reads cache, if id in cache.entries then {cache.entries[id]} else {}
  {
    if id in cache.entries then cache.entries[id].checkpoint else None
  }

  /** Every blob store in the cache files blobs under this hash. */
  ghost predicate Hashing(cache: ConversationCache, hash: Bytes -> Bytes)
    reads cache
  {
    cache.hash == hash && forall k :: k in cache.entries ==> cache.entries[k].blobs.hash == hash
  }

  /** What a conversation had stored is what its entry holds when acquired, or nothing. */
  method AcquireHashing(cache: ConversationCache, hash: Bytes -> Bytes, id: string, now: int) returns (entry: Entry)
    requires cache.Valid() && Hashing(cache, hash) && id != "" && now > 0
    modifies cache`entries, cache`times, (if id in cache.entries then {cache.entries[id]} else {})`lastAccess
    ensures cache.Valid() && Hashing(cache, hash) && id in cache.entries && cache.entries[id] == entry
    ensures id in old(cache.entries) ==> entry == old(cache.entries)[id]
    ensures id !in old(cache.entries) ==> fresh(entry) && fresh(entry.blobs)
    ensures entry.blobs.data == old(StoreOf(cache, id)) && entry.checkpoint == old(CheckpointOf(cache, id))
  {
    ghost var store, checkpoint := StoreOf(cache, id), CheckpointOf(cache, id);
    entry := cache.Acquire(id, now);
    assert entry.blobs.data == store && entry.checkpoint == checkpoint;
    forall k | k in cache.entries ensures cache.entries[k].blobs.hash == hash {
      assert k != id ==> k in old(cache.entries) && cache.entries[k] == old(cache.entries)[k];
    }
  }

  lemma SubsetSize<T>(a: set<T>, b: set<T>)
    requires a <= b
    ensures |a| <= |b|
  {
    assert b == a + (b - a);
  }
}
