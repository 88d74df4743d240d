// Interleaved requests over one conversation cache: each acquires an entry, works
// on its blobs, and later stores a checkpoint under its conversation id, while
// other requests evict and re-create entries in between.
module Isolation {
  import opened Basics
  import opened BlobStores
  import opened Protocol
  import opened Caches

  /** The contents of one entry object. */
  datatype Record = Record(store: Store, checkpoint: Option<ConversationState>)

  datatype Held = Held(id: string, entry: nat)

  /** What some request of a conversation has done so far. */
  datatype Done = Wrote(id: string, write: Write) | Stored(id: string, state: ConversationState)

  /** Entry objects are never reused, so they are numbered by creation. */
  datatype World = World(
    heap: seq<Record>,
    cached: map<string, nat>,
    times: map<string, int>,
    requests: map<nat, Held>,
    done: set<Done>
  )

  datatype Event =
    | AcquireBy(request: nat, id: string, now: int)
    | WriteBy(request: nat, write: Write)
    | CheckpointBy(request: nat, state: ConversationState, now: int)

  const START: World := World([], map[], map[], map[], {})

  // ---- steps ----

  ghost predicate Acquires(w: World, r: nat, id: string, now: int, w': World) {
    var entry := if id in w.cached then w.cached[id] else |w.heap|;
    && r !in w.requests && id != "" && now > 0
    && Acquired(w.times, id, now, w'.times)
    && w'.cached.Keys == w'.times.Keys
    && (forall k :: k in w'.cached ==>
          if k == id then w'.cached[k] == entry else k in w.cached && w'.cached[k] == w.cached[k])
    && w'.heap == (if id in w.cached then w.heap else w.heap + [Record(map[], None)])
    && w'.requests == w.requests[r := Held(id, entry)]
    && w'.done == w.done
  }

  /** A blob put by the request, or set by the server on its stream. */
  ghost predicate Writes(w: World, r: nat, write: Write, w': World) {
    && r in w.requests && w.requests[r].entry < |w.heap|
    && var Held(id, i) := w.requests[r];
       w' == w.(heap := w.heap[i := w.heap[i].(store := PutKnown(w.heap[i].store, write.id, write.data))],
                done := w.done + {Wrote(id, write)})
  }

  /** The checkpoint goes to whatever entry the id has by then, or nowhere. */
  ghost predicate Checkpoints(w: World, r: nat, state: ConversationState, now: int, w': World) {
    && r in w.requests && now > 0
    && var id := w.requests[r].id;
       if id !in w.cached then w' == w
       else
         && w.cached[id] < |w.heap|
         && w' == w.(heap := w.heap[w.cached[id] := w.heap[w.cached[id]].(checkpoint := Some(state))],
                     times := w.times[id := now],
                     done := w.done + {Stored(id, state)})
  }

  ghost predicate Next(w: World, e: Event, w': World) {
    match e
    case AcquireBy(r, id, now) => Acquires(w, r, id, now, w')
    case WriteBy(r, write) => Writes(w, r, write, w')
    case CheckpointBy(r, state, now) => Checkpoints(w, r, state, now, w')
  }

  // ---- what every run keeps ----

  /** owner names the conversation each entry object was created for. */
  ghost predicate OwnersMatch(w: World, owner: seq<string>) {
    && |owner| == |w.heap|
    && (forall k :: k in w.cached ==> w.cached[k] < |owner| && owner[w.cached[k]] == k)
    && (forall r :: r in w.requests ==> w.requests[r].entry < |owner| && owner[w.requests[r].entry] == w.requests[r].id)
  }

  /** Whatever an entry holds was put there by a request of its own conversation. */
  ghost predicate ContentsAreOwn(w: World, owner: seq<string>)
    requires |owner| == |w.heap|
  {
    && (forall i :: 0 <= i < |owner| && w.heap[i].checkpoint.Some? ==>
          Stored(owner[i], w.heap[i].checkpoint.value) in w.done)
    && (forall i, key :: 0 <= i < |owner| && key in w.heap[i].store ==>
          exists write :: Wrote(owner[i], write) in w.done && Hex(write.id) == key
            && write.data == w.heap[i].store[key])
  }

  ghost predicate CacheIsSound(w: World) {
    && w.cached.Keys == w.times.Keys && |w.times| <= MAX_CACHED && "" !in w.times
    && (forall k :: k in w.times ==> w.times[k] > 0)
  }

  ghost predicate Inv(w: World, owner: seq<string>) {
    OwnersMatch(w, owner) && ContentsAreOwn(w, owner) && CacheIsSound(w)
  }

  function NextOwner(w: World, owner: seq<string>, e: Event): seq<string> {
    if e.AcquireBy? && e.id !in w.cached then owner + [e.id] else owner
  }

  lemma AcquireKeepsOwners(w: World, owner: seq<string>, r: nat, id: string, now: int, w': World)
    requires OwnersMatch(w, owner) && Acquires(w, r, id, now, w')
    ensures OwnersMatch(w', NextOwner(w, owner, AcquireBy(r, id, now)))
  {
  }

  lemma AcquireKeepsContents(w: World, owner: seq<string>, r: nat, id: string, now: int, w': World)
    requires OwnersMatch(w, owner) && ContentsAreOwn(w, owner) && Acquires(w, r, id, now, w')
    ensures var owner' := NextOwner(w, owner, AcquireBy(r, id, now));
            |owner'| == |w'.heap| && ContentsAreOwn(w', owner')
  {
    var owner' := NextOwner(w, owner, AcquireBy(r, id, now));
    forall i, key | 0 <= i < |owner'| && key in w'.heap[i].store
      ensures exists write ::
          Wrote(owner'[i], write) in w'.done && Hex(write.id) == key && write.data == w'.heap[i].store[key]
    {
      assert i < |owner| && w'.heap[i] == w.heap[i] && owner'[i] == owner[i];
    }
  }

  lemma AcquireKeepsBounds(w: World, r: nat, id: string, now: int, w': World)
    requires CacheIsSound(w) && Acquires(w, r, id, now, w')
    ensures CacheIsSound(w')
  {
  }

  lemma WriteKeepsInv(w: World, owner: seq<string>, r: nat, write: Write, w': World)
    requires Inv(w, owner) && Writes(w, r, write, w')
    ensures Inv(w', owner)
  {
    var i := w.requests[r].entry;
    forall j, key | 0 <= j < |owner| && key in w'.heap[j].store
      ensures exists u :: Wrote(owner[j], u) in w'.done && Hex(u.id) == key && u.data == w'.heap[j].store[key]
    {
      if j == i && key == Hex(write.id) {
        assert Wrote(owner[j], write) in w'.done;
      } else {
        assert key in w.heap[j].store && w'.heap[j].store[key] == w.heap[j].store[key];
        var u :| Wrote(owner[j], u) in w.done && Hex(u.id) == key && u.data == w.heap[j].store[key];
        assert Wrote(owner[j], u) in w'.done;
      }
    }
  }

  lemma CheckpointKeepsInv(w: World, owner: seq<string>, r: nat, state: ConversationState, now: int, w': World)
    requires Inv(w, owner) && Checkpoints(w, r, state, now, w')
    ensures Inv(w', owner)
  {
    if w.requests[r].id in w.cached {
      assert w'.times.Keys == w.times.Keys;
      forall j, key | 0 <= j < |owner| && key in w'.heap[j].store
        ensures exists u :: Wrote(owner[j], u) in w'.done && Hex(u.id) == key && u.data == w'.heap[j].store[key]
      {
        var u :| Wrote(owner[j], u) in w.done && Hex(u.id) == key && u.data == w.heap[j].store[key];
        assert Wrote(owner[j], u) in w'.done;
      }
    }
  }

  lemma NextKeepsInv(w: World, owner: seq<string>, e: Event, w': World)
    requires Inv(w, owner) && Next(w, e, w')
    ensures Inv(w', NextOwner(w, owner, e))
  {
    match e {
      case AcquireBy(r, id, now) =>
        AcquireKeepsOwners(w, owner, r, id, now, w');
        AcquireKeepsContents(w, owner, r, id, now, w');
        AcquireKeepsBounds(w, r, id, now, w');
      case WriteBy(r, write) => WriteKeepsInv(w, owner, r, write, w');
      case CheckpointBy(r, state, now) => CheckpointKeepsInv(w, owner, r, state, now, w');
    }
  }

  ghost predicate IsRun(worlds: seq<World>, events: seq<Event>) {
    && |worlds| == |events| + 1 && worlds[0] == START
    && forall i :: 0 <= i < |events| ==> Next(worlds[i], events[i], worlds[i + 1])
  }

  lemma {:induction false} RunKeepsInv(worlds: seq<World>, events: seq<Event>) returns (owner: seq<string>)
    requires IsRun(worlds, events)
    ensures Inv(worlds[|events|], owner)
    decreases |events|
  {
    if events == [] {
      owner := [];
    } else {
      var n := |events| - 1;
      var before := RunKeepsInv(worlds[..n + 1], events[..n]);
      assert Next(worlds[n], events[n], worlds[n + 1]);
      NextKeepsInv(worlds[n], before, events[n], worlds[n + 1]);
      owner := NextOwner(worlds[n], before, events[n]);
    }
  }

  // ---- isolation ----

  /** However requests interleave, those of different conversations never hold the same entry, the
      blobs and the checkpoint in an entry come from its own conversation, and the bound holds. */
  lemma ConversationsAreIsolated(worlds: seq<World>, events: seq<Event>)
    requires IsRun(worlds, events)
    ensures var w := worlds[|events|];
      && |w.cached| <= MAX_CACHED
      && (forall q, r :: q in w.requests && r in w.requests && w.requests[q].id != w.requests[r].id ==>
            w.requests[q].entry != w.requests[r].entry)
      && (forall r :: r in w.requests ==> w.requests[r].entry < |w.heap|)
      && (forall r :: r in w.requests && w.heap[w.requests[r].entry].checkpoint.Some? ==>
            Stored(w.requests[r].id, w.heap[w.requests[r].entry].checkpoint.value) in w.done)
      && (forall r, key :: r in w.requests && key in w.heap[w.requests[r].entry].store ==>
            exists write :: Wrote(w.requests[r].id, write) in w.done && Hex(write.id) == key
                         && write.data == w.heap[w.requests[r].entry].store[key])
  {
    var owner := RunKeepsInv(worlds, events);
    var w := worlds[|events|];
    assert |w.cached| == |w.cached.Keys| == |w.times.Keys| == |w.times|;
  }

  /** No step of another conversation touches an entry a request holds, whatever it evicts. */
  lemma OthersNeverTouchMyEntry(worlds: seq<World>, events: seq<Event>, e: Event, w': World, r: nat)
    requires IsRun(worlds, events)
    requires var w := worlds[|events|];
      && Next(w, e, w') && r in w.requests && e.request != r
      && (e.AcquireBy? || (e.request in w.requests && w.requests[e.request].id != w.requests[r].id))
    ensures var w, i := worlds[|events|], worlds[|events|].requests[r].entry;
      r in w'.requests && w'.requests[r] == w.requests[r] && i < |w.heap| && i < |w'.heap| && w'.heap[i] == w.heap[i]
  {
    var owner := RunKeepsInv(worlds, events);
  }

  /** What a request of the same conversation gets right after a checkpoint was stored: the entry it was
      stored in, with that checkpoint, used at that time. */
  lemma CheckpointIsFoundNext(w: World, r: nat, state: ConversationState, now: int, w': World,
                              next: nat, then': int, w'': World)
    requires r in w.requests && w.requests[r].id in w.cached
    requires Checkpoints(w, r, state, now, w') && Acquires(w', next, w.requests[r].id, then', w'')
    ensures w'.times[w.requests[r].id] == now
    ensures next in w''.requests && w''.requests[next] == Held(w.requests[r].id, w.cached[w.requests[r].id])
    ensures w.cached[w.requests[r].id] < |w''.heap|
    ensures w''.heap[w.cached[w.requests[r].id]].checkpoint == Some(state)
  {
  }

  /** A checkpoint for a conversation that is no longer cached goes nowhere. */
  lemma EvictedCheckpointIsLost(w: World, r: nat, state: ConversationState, now: int, w': World)
    requires Checkpoints(w, r, state, now, w') && w.requests[r].id !in w.cached
    ensures w'.heap == w.heap && w'.cached == w.cached && w'.times == w.times
  {
  }

  /** A blob goes into the entry the request holds, cached or not, under its own id alone. */
  lemma WriteGoesToHeldEntry(w: World, r: nat, write: Write, w': World, other: Bytes)
    requires Writes(w, r, write, w')
    ensures |w'.heap| == |w.heap| && w'.cached == w.cached && w'.times == w.times && w'.requests == w.requests
    ensures var i := w.requests[r].entry;
      && (forall j :: 0 <= j < |w.heap| && j != i ==> w'.heap[j] == w.heap[j])
      && w'.heap[i].checkpoint == w.heap[i].checkpoint
      && Get(w'.heap[i].store, other) == if other == write.id then Some(write.data) else Get(w.heap[i].store, other)
  {
    StoreIsPlainMap(w.heap[w.requests[r].entry].store, write.id, write.data, other);
  }

  /** A conversation that is not cached gets an empty entry that nobody holds. */
  lemma NewEntryIsEmpty(w: World, owner: seq<string>, r: nat, id: string, now: int, w': World)
    requires Inv(w, owner) && Acquires(w, r, id, now, w') && id !in w.cached
    ensures r in w'.requests && w'.requests[r].entry < |w'.heap|
    ensures w'.heap[w'.requests[r].entry] == Record(map[], None)
    ensures forall q :: q in w.requests ==> w.requests[q].entry != w'.requests[r].entry
  {
  }
}
