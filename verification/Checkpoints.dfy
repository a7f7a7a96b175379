/**
 The checkpointer: a local workspace that is replaced from the shared cache before each use, pruned to the
 newest checkpoint of every namespace and written back after each change.
 */
module Checkpoints {
  import opened Sequences
  import opened StableSort
  import opened CheckpointCodec

  /** Reads the channel versions out of a serialized checkpoint, if it can be read. */
  type Serde = Typed -> Option<map<string, string>>

  datatype Workspace = Workspace(storage: map<string, Storage>, writes: Writes, blobs: Blobs)

  // ----- The newest checkpoint

  predicate Before(a: string, b: string) {
    Less(Codes(a), Codes(b))
  }

  predicate IsLatest(ids: set<string>, id: string) {
    id in ids && forall other :: other in ids ==> !Before(id, other)
  }

  lemma {:induction false} LatestExists(ids: set<string>)
    requires ids != {}
    ensures exists id :: IsLatest(ids, id)
  {
    var some :| some in ids;
    LessIsTotal(Codes(some), Codes(some));
    if ids == {some} {
      assert IsLatest(ids, some);
    } else {
      var rest := ids - {some};
      assert ids == rest + {some} && rest != {};
      LatestExists(rest);
      var best :| IsLatest(rest, best);
      LessIsTotal(Codes(best), Codes(some));
      if Before(best, some) {
        forall other | other in rest ensures !Before(some, other) {
          LessIsTotal(Codes(other), Codes(best));
          LessIsTransitive(Codes(other), Codes(best), Codes(some));
        }
        assert IsLatest(ids, some);
      } else {
        assert IsLatest(ids, best);
      }
    }
  }

  lemma LatestIsUnique(ids: set<string>, a: string, b: string)
    requires IsLatest(ids, a) && IsLatest(ids, b)
    ensures a == b
  {
    LessIsTotal(Codes(a), Codes(b));
    CodesDiffer(a, b);
  }

  /** The largest id, in code-point order. */
  function Latest(ids: set<string>): (id: string)
    requires ids != {}
    ensures IsLatest(ids, id)
  {
    LatestExists(ids);
    assert forall a, b :: IsLatest(ids, a) && IsLatest(ids, b) ==> a == b by {
      forall a, b | IsLatest(ids, a) && IsLatest(ids, b) ensures a == b { LatestIsUnique(ids, a, b); }
    }
    var id :| id in ids && IsLatest(ids, id);
    id
  }

  // ----- One thread's part of the workspace

  function Namespaces(ws: Workspace, thread: string): Storage {
    if thread in ws.storage then ws.storage[thread] else map[]
  }

  function WritesOf(writes: Writes, thread: string): Writes {
    map k | k in writes && k.thread == thread :: writes[k]
  }

  function BlobsOf(blobs: Blobs, thread: string): Blobs {
    map k | k in blobs && k.thread == thread :: blobs[k]
  }

  function Part(ws: Workspace, thread: string): Payload {
    Payload(Namespaces(ws, thread), WritesOf(ws.writes, thread), BlobsOf(ws.blobs, thread))
  }

  const NOTHING := Payload(map[], map[], map[])

  /** All entries belong to the thread. */
  ghost predicate Owned(p: Payload, thread: string) {
    (forall k :: k in p.writes ==> k.thread == thread) && (forall k :: k in p.blobs ==> k.thread == thread)
  }

  // ----- Evict, prune, persist, load

  function Evicted(ws: Workspace, thread: string): Workspace {
    Workspace(ws.storage - {thread},
              map k | k in ws.writes && k.thread != thread :: ws.writes[k],
              map k | k in ws.blobs && k.thread != thread :: ws.blobs[k])
  }

  predicate KeepsCheckpoint(storage: Storage, ns: string, id: string) {
    ns in storage && storage[ns] != map[] && id == Latest(storage[ns].Keys)
  }

  /** The newest checkpoint of the namespace names this version of the channel. */
  predicate KeepsBlob(serde: Serde, storage: Storage, ns: string, channel: string, version: string) {
    ns in storage && storage[ns] != map[] &&
    var versions := serde(storage[ns][Latest(storage[ns].Keys)].dumped);
    versions.Some? && channel in versions.value && versions.value[channel] == version
  }

  function PrunedStorage(storage: Storage): Storage {
    map ns | ns in storage && storage[ns] != map[] ::
      map[Latest(storage[ns].Keys) := storage[ns][Latest(storage[ns].Keys)]]
  }

  function Pruned(serde: Serde, ws: Workspace, thread: string): Workspace {
    var storage := Namespaces(ws, thread);
    if storage == map[] then ws
    else
      Workspace(ws.storage[thread := PrunedStorage(storage)],
                map k | k in ws.writes && (k.thread == thread ==> KeepsCheckpoint(storage, k.ns, k.checkpoint)) :: ws.writes[k],
                map k | k in ws.blobs && (k.thread == thread ==> KeepsBlob(serde, storage, k.ns, k.channel, k.version)) ::
                  ws.blobs[k])
  }

  /** What the cache gets, or None when the thread's entry is deleted. */
  function Persisted(serde: Serde, ws: Workspace, thread: string): Option<Payload> {
    var pruned := Pruned(serde, ws, thread);
    if Namespaces(pruned, thread) == map[] then None else Some(Part(pruned, thread))
  }

  /** Entry by entry, the loaded writes are laid over the ones there. */
  function UpdatedWrites(writes: Writes, loaded: Writes): Writes {
    writes + map k | k in loaded :: (if k in writes then writes[k] else map[]) + loaded[k]
  }

  function Loaded(ws: Workspace, thread: string, payload: Option<Payload>): Workspace {
    var clean := Evicted(ws, thread);
    if payload.None? then clean
    else
      var p := payload.value;
      Workspace(if p.storage == map[] then clean.storage else clean.storage[thread := p.storage],
                UpdatedWrites(clean.writes, p.writes), clean.blobs + p.blobs)
  }

  // ----- Laws

  lemma LatestOfOne(id: string)
    ensures Latest({id}) == id
  {}

  lemma PrunedStorageFacts(storage: Storage, ns: string)
    ensures ns in PrunedStorage(storage) <==> ns in storage && storage[ns] != map[]
    ensures ns in PrunedStorage(storage) ==>
              var id := Latest(storage[ns].Keys);
              && PrunedStorage(storage)[ns] == map[id := storage[ns][id]]
              && PrunedStorage(storage)[ns].Keys == {id} && Latest({id}) == id
  {
    if ns in PrunedStorage(storage) {
      LatestOfOne(Latest(storage[ns].Keys));
    }
  }

  /** Pruning does not change which checkpoints, writes and blobs are worth keeping. */
  lemma PruningKeepsTheTests(serde: Serde, storage: Storage, ns: string)
    ensures forall id :: KeepsCheckpoint(PrunedStorage(storage), ns, id) == KeepsCheckpoint(storage, ns, id)
    ensures forall channel, version ::
              KeepsBlob(serde, PrunedStorage(storage), ns, channel, version) == KeepsBlob(serde, storage, ns, channel, version)
  {
    PrunedStorageFacts(storage, ns);
  }

  lemma PrunedStorageTwice(storage: Storage)
    ensures PrunedStorage(PrunedStorage(storage)) == PrunedStorage(storage)
  {
    var once := PrunedStorage(storage);
    forall ns ensures ns in PrunedStorage(once) <==> ns in once {
      PrunedStorageFacts(storage, ns);
    }
    forall ns | ns in once ensures PrunedStorage(once)[ns] == once[ns] {
      PrunedStorageFacts(storage, ns);
      PrunedStorageFacts(once, ns);
    }
  }

  /**
   What a prune keeps of a thread is exactly the newest checkpoint of each namespace, the writes pending on it,
   and the blobs its channel versions name; the kept entries are unchanged.
   */
  lemma PruneKeepsExactlyTheNewest(serde: Serde, ws: Workspace, thread: string)
    requires Namespaces(ws, thread) != map[]
    ensures var before, after := Part(ws, thread), Part(Pruned(serde, ws, thread), thread);
            && (forall ns, id :: ns in after.storage && id in after.storage[ns] <==> KeepsCheckpoint(before.storage, ns, id))
            && (forall ns, id :: KeepsCheckpoint(before.storage, ns, id) ==> after.storage[ns][id] == before.storage[ns][id])
            && (forall k :: k in after.writes <==> k in before.writes && KeepsCheckpoint(before.storage, k.ns, k.checkpoint))
            && (forall k :: k in after.writes ==> after.writes[k] == before.writes[k])
            && (forall k :: k in after.blobs <==>
                  k in before.blobs && KeepsBlob(serde, before.storage, k.ns, k.channel, k.version))
            && (forall k :: k in after.blobs ==> after.blobs[k] == before.blobs[k])
  {
    forall ns { PrunedStorageFacts(Namespaces(ws, thread), ns); }
  }

  /** A checkpoint id is the newest of its namespace: no other one comes after it in code-point order. */
  ghost predicate NewestOf(saved: map<string, Saved>, id: string) {
    id in saved && forall other :: other in saved ==> !TextBefore(id, other)
  }

  lemma LatestIsNewest(saved: map<string, Saved>, id: string)
    requires saved != map[]
    ensures NewestOf(saved, id) <==> id == Latest(saved.Keys)
  {
    forall other { CodesCompare(id, other); }
    if NewestOf(saved, id) {
      assert IsLatest(saved.Keys, id);
      LatestIsUnique(saved.Keys, id, Latest(saved.Keys));
    }
  }

  /**
   The same prune in terms of the entries themselves. Of each namespace the newest checkpoint stays; a pending
   write stays if its checkpoint does; a blob stays if the checkpoint left in its namespace can be read and
   gives its channel this version.
   */
  lemma PruneInWords(serde: Serde, ws: Workspace, thread: string)
    requires Namespaces(ws, thread) != map[]
    ensures var before, after := Part(ws, thread), Part(Pruned(serde, ws, thread), thread);
            && (forall ns, id :: ns in after.storage && id in after.storage[ns] <==>
                  ns in before.storage && NewestOf(before.storage[ns], id))
            && (forall k :: k in after.writes <==>
                  k in before.writes && k.ns in after.storage && k.checkpoint in after.storage[k.ns])
            && (forall k :: k in after.blobs <==>
                  && k in before.blobs && k.ns in after.storage
                  && exists id :: id in after.storage[k.ns] && NamesVersion(serde, after.storage[k.ns][id], k))
  {
    PruneKeepsExactlyTheNewest(serde, ws, thread);
    var storage := Namespaces(ws, thread);
    forall ns, id ensures KeepsCheckpoint(storage, ns, id) <==> ns in storage && NewestOf(storage[ns], id) {
      if ns in storage && storage[ns] != map[] {
        LatestIsNewest(storage[ns], id);
      }
    }
    BlobsNamed(serde, ws, thread);
  }

  /** The channel versions of a checkpoint can be read and give the blob's channel the blob's version. */
  ghost predicate NamesVersion(serde: Serde, saved: Saved, k: BlobKey) {
    var versions := serde(saved.dumped);
    versions.Some? && k.channel in versions.value && versions.value[k.channel] == k.version
  }

  lemma BlobsNamed(serde: Serde, ws: Workspace, thread: string)
    requires Namespaces(ws, thread) != map[]
    ensures var before, after := Part(ws, thread), Part(Pruned(serde, ws, thread), thread);
            forall k :: k in after.blobs <==>
              && k in before.blobs && k.ns in after.storage
              && exists id :: id in after.storage[k.ns] && NamesVersion(serde, after.storage[k.ns][id], k)
  {
    var before, after := Part(ws, thread), Part(Pruned(serde, ws, thread), thread);
    PruneKeepsExactlyTheNewest(serde, ws, thread);
    assert after.storage == PrunedStorage(before.storage);
    forall k: BlobKey
      ensures KeepsBlob(serde, before.storage, k.ns, k.channel, k.version) <==>
                k.ns in after.storage && exists id :: id in after.storage[k.ns] && NamesVersion(serde, after.storage[k.ns][id], k)
    {
      PrunedStorageFacts(before.storage, k.ns);
      if k.ns in after.storage {
        var id := Latest(before.storage[k.ns].Keys);
        assert after.storage[k.ns].Keys == {id} && id in after.storage[k.ns];
      }
    }
  }

  /** Another thread's part is untouched by all of it. */
  lemma OthersUntouched(serde: Serde, ws: Workspace, thread: string, other: string, payload: Option<Payload>)
    requires other != thread && (payload.Some? ==> Owned(payload.value, thread))
    ensures Part(Pruned(serde, ws, thread), other) == Part(ws, other)
    ensures Part(Evicted(ws, thread), other) == Part(ws, other)
    ensures Part(Loaded(ws, thread, payload), other) == Part(ws, other)
  {
    OthersUntouchedByPrune(serde, ws, thread, other);
    OthersUntouchedByEvict(ws, thread, other);
    if payload.Some? {
      OthersUntouchedByLoad(ws, thread, other, payload.value);
    }
  }

  lemma OthersUntouchedByPrune(serde: Serde, ws: Workspace, thread: string, other: string)
    requires other != thread
    ensures Part(Pruned(serde, ws, thread), other) == Part(ws, other)
  {
    var after := Pruned(serde, ws, thread);
    assert WritesOf(after.writes, other) == WritesOf(ws.writes, other);
    assert BlobsOf(after.blobs, other) == BlobsOf(ws.blobs, other);
  }

  lemma OthersUntouchedByEvict(ws: Workspace, thread: string, other: string)
    requires other != thread
    ensures Part(Evicted(ws, thread), other) == Part(ws, other)
  {
    var after := Evicted(ws, thread);
    assert WritesOf(after.writes, other) == WritesOf(ws.writes, other);
    assert BlobsOf(after.blobs, other) == BlobsOf(ws.blobs, other);
  }

  lemma OthersUntouchedByLoad(ws: Workspace, thread: string, other: string, p: Payload)
    requires other != thread && Owned(p, thread)
    ensures Part(Loaded(ws, thread, Some(p)), other) == Part(ws, other)
  {
    var clean := Evicted(ws, thread);
    OthersUntouchedByEvict(ws, thread, other);
    OtherWrites(clean.writes, p.writes, thread, other);
    OtherBlobs(clean.blobs, p.blobs, thread, other);
  }

  lemma OtherWrites(writes: Writes, loaded: Writes, thread: string, other: string)
    requires other != thread && forall k :: k in loaded ==> k.thread == thread
    ensures WritesOf(UpdatedWrites(writes, loaded), other) == WritesOf(writes, other)
  {}

  lemma OtherBlobs(blobs: Blobs, loaded: Blobs, thread: string, other: string)
    requires other != thread && forall k :: k in loaded ==> k.thread == thread
    ensures BlobsOf(blobs + loaded, other) == BlobsOf(blobs, other)
  {}

  lemma NothingToPrune(serde: Serde, ws: Workspace, thread: string, storage: Storage)
    requires Namespaces(ws, thread) == storage && PrunedStorage(storage) == storage
    requires forall k :: k in ws.writes && k.thread == thread ==> KeepsCheckpoint(storage, k.ns, k.checkpoint)
    requires forall k :: k in ws.blobs && k.thread == thread ==> KeepsBlob(serde, storage, k.ns, k.channel, k.version)
    ensures Pruned(serde, ws, thread) == ws
  {
    if storage != map[] {
      var after := Pruned(serde, ws, thread);
      assert after.storage == ws.storage;
      assert after.writes == ws.writes;
      assert after.blobs == ws.blobs;
    }
  }

  lemma PruneIsIdempotent(serde: Serde, ws: Workspace, thread: string)
    ensures Pruned(serde, Pruned(serde, ws, thread), thread) == Pruned(serde, ws, thread)
  {
    var storage, once := Namespaces(ws, thread), Pruned(serde, ws, thread);
    if storage != map[] {
      PrunedStorageTwice(storage);
      forall k | k in once.writes && k.thread == thread ensures KeepsCheckpoint(PrunedStorage(storage), k.ns, k.checkpoint) {
        PruningKeepsTheTests(serde, storage, k.ns);
      }
      forall k | k in once.blobs && k.thread == thread
        ensures KeepsBlob(serde, PrunedStorage(storage), k.ns, k.channel, k.version)
      {
        PruningKeepsTheTests(serde, storage, k.ns);
      }
      NothingToPrune(serde, once, thread, PrunedStorage(storage));
    }
  }

  lemma EvictedPart(ws: Workspace, thread: string)
    ensures Part(Evicted(ws, thread), thread) == NOTHING
  {}

  lemma LoadedPart(ws: Workspace, thread: string, p: Payload)
    requires Owned(p, thread)
    ensures Part(Loaded(ws, thread, Some(p)), thread) == p
  {
    var clean := Evicted(ws, thread);
    EvictedPart(ws, thread);
    LoadedWrites(clean.writes, p.writes, thread);
    LoadedBlobs(clean.blobs, p.blobs, thread);
  }

  lemma LoadedWrites(writes: Writes, loaded: Writes, thread: string)
    requires WritesOf(writes, thread) == map[] && forall k :: k in loaded ==> k.thread == thread
    ensures WritesOf(UpdatedWrites(writes, loaded), thread) == loaded
  {
    forall k | k in loaded ensures k !in writes && map[] + loaded[k] == loaded[k] {
      assert k in writes ==> k in WritesOf(writes, thread);
    }
  }

  lemma LoadedBlobs(blobs: Blobs, loaded: Blobs, thread: string)
    requires BlobsOf(blobs, thread) == map[] && forall k :: k in loaded ==> k.thread == thread
    ensures BlobsOf(blobs + loaded, thread) == loaded
  {
    forall k | k in blobs ensures k.thread != thread {
      assert k.thread == thread ==> k in BlobsOf(blobs, thread);
    }
  }

  /**
   Persist, then load in any workspace, however stale: the thread's part there is the pruned part that was
   persisted, and the parts of other threads are what they were.
   */
  lemma LoadAfterPersist(serde: Serde, ws: Workspace, elsewhere: Workspace, thread: string, other: string)
    requires other != thread
    ensures var cached := Persisted(serde, ws, thread);
            var after := Loaded(elsewhere, thread, cached);
            && Part(after, thread) == (if cached.Some? then Part(Pruned(serde, ws, thread), thread) else NOTHING)
            && Part(after, other) == Part(elsewhere, other)
  {
    var cached := Persisted(serde, ws, thread);
    OthersUntouched(serde, elsewhere, thread, other, cached);
    if cached.Some? {
      LoadedPart(elsewhere, thread, cached.value);
    } else {
      EvictedPart(elsewhere, thread);
    }
  }

  /** Nothing of the thread is lost with a deleted entry unless it hung on no checkpoint. */
  lemma DeletedOnlyWithoutCheckpoint(serde: Serde, ws: Workspace, thread: string)
    ensures Persisted(serde, ws, thread).None? <==> forall ns :: ns in Namespaces(ws, thread) ==> Namespaces(ws, thread)[ns] == map[]
  {
    var storage := Namespaces(ws, thread);
    if storage != map[] {
      assert Namespaces(Pruned(serde, ws, thread), thread) == PrunedStorage(storage);
      if ns :| ns in storage && storage[ns] != map[] {
        assert ns in PrunedStorage(storage);
      } else {
        assert PrunedStorage(storage) == map[];
      }
    }
  }

  // ----- Putting a checkpoint

  /** What the in-memory saver adds: one checkpoint of one namespace, and its new channel values. */
  function With(ws: Workspace, thread: string, ns: string, id: string, saved: Saved, added: Blobs): Workspace {
    var storage := Namespaces(ws, thread);
    var checkpoints := if ns in storage then storage[ns] else map[];
    ws.(storage := ws.storage[thread := storage[ns := checkpoints[id := saved]]], blobs := ws.blobs + added)
  }

  function Put(serde: Serde, ws: Workspace, payload: Option<Payload>, thread: string, ns: string, id: string, saved: Saved,
               added: Blobs): Option<Payload> {
    Persisted(serde, With(Loaded(ws, thread, payload), thread, ns, id, saved, added), thread)
  }

  /** Every channel version the checkpoint names has its blob: a new one if there is one, else the one cached before. */
  ghost predicate HasItsBlobs(now: Blobs, thread: string, ns: string, versions: map<string, string>, added: Blobs, before: Blobs) {
    forall channel :: channel in versions ==>
      var k := BlobKey(thread, ns, channel, versions[channel]);
      && (k in added ==> k in now && now[k] == added[k])
      && (k !in added && k in before ==> k in now && now[k] == before[k])
  }

  /** In `now` the namespace holds the put checkpoint, alone and with its blobs, iff no stored id is larger. */
  ghost predicate StandsIffNewest(serde: Serde, now: Payload, before: Payload, thread: string, ns: string, id: string,
                                  saved: Saved, added: Blobs) {
    var stored := if ns in before.storage then before.storage[ns].Keys else {};
    && ns in now.storage
    && (id in now.storage[ns] <==> forall other :: other in stored ==> !Before(id, other))
    && (id in now.storage[ns] ==>
          && now.storage[ns] == map[id := saved]
          && (serde(saved.dumped).Some? ==>
                HasItsBlobs(now.blobs, thread, ns, serde(saved.dumped).value, added, before.blobs)))
  }

  /**
   A put is what a later read finds if and only if no stored id of its namespace is larger; then all its
   channel values are there, whether new or carried over. The first put of a thread always stands.
   */
  lemma PutSurvivesIffNewest(serde: Serde, ws: Workspace, cached: Option<Payload>, thread: string, ns: string, id: string,
                             saved: Saved, added: Blobs)
    requires cached.Some? ==> Owned(cached.value, thread)
    ensures var now := Put(serde, ws, cached, thread, ns, id, saved, added);
            && now.Some?
            && StandsIffNewest(serde, now.value, if cached.Some? then cached.value else NOTHING, thread, ns, id, saved, added)
            && (cached.None? ==> id in now.value.storage[ns])
  {
    if cached.Some? {
      LoadedPart(ws, thread, cached.value);
    } else {
      EvictedPart(ws, thread);
    }
    WithStandsIffNewest(serde, Loaded(ws, thread, cached), thread, ns, id, saved, added);
  }

  ghost predicate OfThread(blobs: Blobs, thread: string) {
    forall k :: k in blobs ==> k.thread == thread
  }

  lemma OthersUntouchedByPut(serde: Serde, ws: Workspace, cached: Option<Payload>, thread: string, ns: string, id: string,
                             saved: Saved, added: Blobs, other: string)
    requires other != thread && OfThread(added, thread) && (cached.Some? ==> Owned(cached.value, thread))
    ensures var full := With(Loaded(ws, thread, cached), thread, ns, id, saved, added);
            Part(Evicted(Pruned(serde, full, thread), thread), other) == Part(ws, other)
  {
    var loaded := Loaded(ws, thread, cached);
    var full := With(loaded, thread, ns, id, saved, added);
    OthersUntouched(serde, ws, thread, other, cached);
    OtherBlobs(loaded.blobs, added, thread, other);
    OthersUntouchedByPrune(serde, full, thread, other);
    OthersUntouchedByEvict(Pruned(serde, full, thread), thread, other);
  }

  /** An older id than the stored one is dropped at once: the put is not what is read back. */
  lemma OlderPutIsDropped(serde: Serde, ws: Workspace, saved: Saved)
    ensures var stored := Payload(map["" := map["2" := saved]], map[], map[]);
            var now := Put(serde, ws, Some(stored), "t", "", "1", saved, map[]);
            now.Some? && "" in now.value.storage && "1" !in now.value.storage[""]
  {
    var stored := Payload(map["" := map["2" := saved]], map[], map[]);
    PutSurvivesIffNewest(serde, ws, Some(stored), "t", "", "1", saved, map[]);
    assert "2" in stored.storage[""].Keys && Codes("1")[0] < Codes("2")[0];
    assert Before("1", "2");
  }

  lemma WithStandsIffNewest(serde: Serde, loaded: Workspace, thread: string, ns: string, id: string, saved: Saved, added: Blobs)
    ensures var now := Persisted(serde, With(loaded, thread, ns, id, saved, added), thread);
            now.Some? && StandsIffNewest(serde, now.value, Part(loaded, thread), thread, ns, id, saved, added)
  {
    var full := With(loaded, thread, ns, id, saved, added);
    var stored := if ns in Namespaces(loaded, thread) then Namespaces(loaded, thread)[ns].Keys else {};
    PersistedOf(serde, full, thread, ns, id);
    LatestAmong(stored, id);
    WithKeys(loaded, thread, ns, id, saved, added);
    if id == Latest(stored + {id}) && serde(saved.dumped).Some? {
      PutKeepsBlobs(serde, full, thread, ns, id, saved, added, BlobsOf(loaded.blobs, thread), loaded);
    }
  }

  lemma WithKeys(loaded: Workspace, thread: string, ns: string, id: string, saved: Saved, added: Blobs)
    ensures var stored := if ns in Namespaces(loaded, thread) then Namespaces(loaded, thread)[ns].Keys else {};
            var checkpoints := Namespaces(With(loaded, thread, ns, id, saved, added), thread);
            ns in checkpoints && checkpoints[ns].Keys == stored + {id} && checkpoints[ns][id] == saved
  {}

  lemma PersistedOf(serde: Serde, full: Workspace, thread: string, ns: string, id: string)
    requires ns in Namespaces(full, thread) && id in Namespaces(full, thread)[ns]
    ensures var now, checkpoints := Persisted(serde, full, thread), Namespaces(full, thread)[ns];
            && now.Some? && ns in now.value.storage
            && now.value.storage[ns] == map[Latest(checkpoints.Keys) := checkpoints[Latest(checkpoints.Keys)]]
            && now.value.blobs == BlobsOf(Pruned(serde, full, thread).blobs, thread)
  {
    PrunedStorageFacts(Namespaces(full, thread), ns);
  }

  lemma LatestAmong(stored: set<string>, id: string)
    ensures Latest(stored + {id}) == id <==> forall other :: other in stored ==> !Before(id, other)
  {
    LessIsTotal(Codes(id), Codes(id));
    if forall other :: other in stored ==> !Before(id, other) {
      LatestIsUnique(stored + {id}, Latest(stored + {id}), id);
    }
  }

  lemma PutKeepsBlobs(serde: Serde, full: Workspace, thread: string, ns: string, id: string, saved: Saved, added: Blobs,
                      before: Blobs, loaded: Workspace)
    requires ns in Namespaces(full, thread) && id in Namespaces(full, thread)[ns]
    requires Namespaces(full, thread)[ns][id] == saved && id == Latest(Namespaces(full, thread)[ns].Keys)
    requires full.blobs == loaded.blobs + added && BlobsOf(loaded.blobs, thread) == before
    requires serde(saved.dumped).Some?
    ensures HasItsBlobs(BlobsOf(Pruned(serde, full, thread).blobs, thread), thread, ns, serde(saved.dumped).value, added, before)
  {
    var versions := serde(saved.dumped).value;
    var now := BlobsOf(Pruned(serde, full, thread).blobs, thread);
    forall channel | channel in versions
      ensures var k := BlobKey(thread, ns, channel, versions[channel]);
              && (k in added ==> k in now && now[k] == added[k])
              && (k !in added && k in before ==> k in now && now[k] == before[k])
    {
      var k := BlobKey(thread, ns, channel, versions[channel]);
      assert KeepsBlob(serde, Namespaces(full, thread), ns, channel, versions[channel]);
      assert k in before ==> k in loaded.blobs && loaded.blobs[k] == before[k];
    }
  }

  // ----- Many puts

  /** One put on the thread, by a saver whose workspace may hold anything. */
  datatype PutOp = PutOp(ws: Workspace, ns: string, id: string, saved: Saved, added: Blobs)

  function AfterPuts(serde: Serde, thread: string, ops: seq<PutOp>): Option<Payload> {
    if ops == [] then None
    else
      var op := Last(ops);
      Put(serde, op.ws, AfterPuts(serde, thread, Front(ops)), thread, op.ns, op.id, op.saved, op.added)
  }

  /** The put with the largest id of the namespace, and of those with that id the last. */
  ghost predicate Newest(ops: seq<PutOp>, ns: string, w: nat) {
    && w < |ops| && ops[w].ns == ns
    && (forall k :: 0 <= k < |ops| && ops[k].ns == ns ==> !Before(ops[w].id, ops[k].id))
    && (forall k :: w < k < |ops| && ops[k].ns == ns ==> ops[k].id != ops[w].id)
  }

  lemma PersistedIsOwned(serde: Serde, ws: Workspace, thread: string)
    ensures Persisted(serde, ws, thread).Some? ==> Owned(Persisted(serde, ws, thread).value, thread)
  {}

  lemma AfterPutsIsOwned(serde: Serde, thread: string, ops: seq<PutOp>)
    ensures AfterPuts(serde, thread, ops).Some? ==> Owned(AfterPuts(serde, thread, ops).value, thread)
  {
    if ops != [] {
      var op := Last(ops);
      var loaded := Loaded(op.ws, thread, AfterPuts(serde, thread, Front(ops)));
      PersistedIsOwned(serde, With(loaded, thread, op.ns, op.id, op.saved, op.added), thread);
    }
  }

  /** Every namespace of one put: the one put to gets the newest of what is there, the others are pruned. */
  lemma PutStorage(serde: Serde, ws: Workspace, cached: Option<Payload>, thread: string, ns: string, id: string, saved: Saved,
                   added: Blobs)
    requires cached.Some? ==> Owned(cached.value, thread)
    ensures var before := if cached.Some? then cached.value.storage else map[];
            var checkpoints := (if ns in before then before[ns] else map[])[id := saved];
            var now := Put(serde, ws, cached, thread, ns, id, saved, added);
            now.Some? && now.value.storage == PrunedStorage(before[ns := checkpoints])
  {
    if cached.Some? {
      LoadedPart(ws, thread, cached.value);
    } else {
      EvictedPart(ws, thread);
    }
    var full := With(Loaded(ws, thread, cached), thread, ns, id, saved, added);
    PersistedOf(serde, full, thread, ns, id);
  }

  lemma OneOfTwo(a: string, b: string)
    ensures Latest({a, b}) == if Before(b, a) then a else b
  {
    LatestAmong({a}, b);
    LatestAmong({b}, a);
    assert {a} + {b} == {a, b} == {b} + {a};
    LessIsTotal(Codes(a), Codes(b));
    CodesDiffer(a, b);
  }

  /** Which put is newest after one more. */
  lemma NewestNext(ops: seq<PutOp>, ns: string, w: nat)
    requires ops != [] && Newest(Front(ops), ns, w)
    ensures Last(ops).ns != ns || Before(Last(ops).id, ops[w].id) ==> Newest(ops, ns, w)
    ensures Last(ops).ns == ns && !Before(Last(ops).id, ops[w].id) ==> Newest(ops, ns, |ops| - 1)
  {
    var n, last := |ops| - 1, Last(ops);
    assert ops[w] == Front(ops)[w] && ops[n] == last;
    LessIsTotal(Codes(last.id), Codes(ops[w].id));
    LessIsTotal(Codes(last.id), Codes(last.id));
    forall k | 0 <= k < n && ops[k].ns == ns ensures !Before(ops[w].id, ops[k].id) {
      assert Front(ops)[k] == ops[k];
    }
    forall k | w < k < n && ops[k].ns == ns ensures ops[k].id != ops[w].id {
      assert Front(ops)[k] == ops[k];
    }
    if !Before(last.id, ops[w].id) {
      forall k | 0 <= k < n && ops[k].ns == ns ensures !Before(last.id, ops[k].id) {
        LessIsTransitive(Codes(ops[k].id), Codes(ops[w].id), Codes(last.id));
      }
    }
  }

  lemma FirstIsNewest(ops: seq<PutOp>, ns: string)
    requires ops != [] && Last(ops).ns == ns && forall k :: 0 <= k < |ops| - 1 ==> ops[k].ns != ns
    ensures Newest(ops, ns, |ops| - 1)
  {
    LessIsTotal(Codes(Last(ops).id), Codes(Last(ops).id));
  }

  /** The one checkpoint that a namespace holds after a put, from the one it held before. */
  lemma PutOnOne(storage: Storage, ns: string, id: string, saved: Saved, of: string, was: string, old': Saved)
    requires of in storage && storage[of] == map[was := old']
    ensures var checkpoints := (if ns in storage then storage[ns] else map[])[id := saved];
            var now := PrunedStorage(storage[ns := checkpoints]);
            && of in now
            && now[of] == (if ns != of || Before(id, was) then map[was := old'] else map[id := saved])
  {
    var checkpoints := (if ns in storage then storage[ns] else map[])[id := saved];
    if ns == of {
      assert checkpoints.Keys == {was, id};
      OneOfTwo(was, id);
      LessIsTotal(Codes(id), Codes(was));
    } else {
      assert storage[of].Keys == {was};
    }
  }

  lemma PutOnNone(storage: Storage, ns: string, id: string, saved: Saved, of: string)
    requires of !in storage
    ensures var checkpoints := (if ns in storage then storage[ns] else map[])[id := saved];
            var now := PrunedStorage(storage[ns := checkpoints]);
            && (ns == of ==> of in now && now[of] == map[id := saved])
            && (ns != of ==> of !in now)
  {
    if ns == of {
      var checkpoints := map[id := saved];
      assert checkpoints.Keys == {id};
      LatestOfOne(id);
    }
  }

  ghost predicate PutTo(ops: seq<PutOp>, ns: string) {
    exists k :: 0 <= k < |ops| && ops[k].ns == ns
  }

  ghost predicate Holds(storage: Storage, ops: seq<PutOp>, ns: string, w: nat) {
    Newest(ops, ns, w) && ns in storage && storage[ns] == map[ops[w].id := ops[w].saved]
  }

  /** The namespace holds its newest put alone, or nothing if it was never put to. */
  ghost predicate HoldsNewest(storage: Storage, ops: seq<PutOp>, ns: string) {
    if PutTo(ops, ns) then exists w: nat :: Holds(storage, ops, ns, w) else ns !in storage
  }

  function StorageOf(cached: Option<Payload>): Storage {
    if cached.Some? then cached.value.storage else map[]
  }

  /** The storage after one more put. */
  function PutInto(storage: Storage, op: PutOp): Storage {
    PrunedStorage(storage[op.ns := (if op.ns in storage then storage[op.ns] else map[])[op.id := op.saved]])
  }

  /**
   After any sequence of puts on a thread, by whatever savers: each namespace that was ever put to holds exactly the
   checkpoint with the largest id ever put there, and no other namespace holds anything.
   */
  lemma {:induction false} CacheHoldsNewestPut(serde: Serde, thread: string, ops: seq<PutOp>, ns: string)
    ensures HoldsNewest(StorageOf(AfterPuts(serde, thread, ops)), ops, ns)
  {
    if ops != [] {
      var front, op := Front(ops), Last(ops);
      var cached := AfterPuts(serde, thread, front);
      CacheHoldsNewestPut(serde, thread, front, ns);
      AfterPutsIsOwned(serde, thread, front);
      PutStorage(serde, op.ws, cached, thread, op.ns, op.id, op.saved, op.added);
      PutToNext(ops, ns);
      if PutTo(front, ns) {
        var w: nat :| Holds(StorageOf(cached), front, ns, w);
        NextHolds(StorageOf(cached), ops, ns, w);
      } else {
        FirstHolds(StorageOf(cached), ops, ns);
      }
    }
  }

  lemma PutToNext(ops: seq<PutOp>, ns: string)
    requires ops != []
    ensures PutTo(ops, ns) <==> PutTo(Front(ops), ns) || Last(ops).ns == ns
  {
    if k :| 0 <= k < |Front(ops)| && Front(ops)[k].ns == ns {
      assert ops[k].ns == ns;
    }
    if k :| 0 <= k < |ops| && ops[k].ns == ns {
      assert k < |ops| - 1 ==> Front(ops)[k].ns == ns;
    }
    if Last(ops).ns == ns {
      assert ops[|ops| - 1].ns == ns;
    }
  }

  lemma NextHolds(storage: Storage, ops: seq<PutOp>, ns: string, w: nat)
    requires ops != [] && Holds(storage, Front(ops), ns, w)
    ensures var op := Last(ops);
            Holds(PutInto(storage, op), ops, ns, if op.ns != ns || Before(op.id, ops[w].id) then w else |ops| - 1)
  {
    var op := Last(ops);
    assert Front(ops)[w] == ops[w];
    NewestNext(ops, ns, w);
    PutOnOne(storage, op.ns, op.id, op.saved, ns, ops[w].id, ops[w].saved);
  }

  lemma FirstHolds(storage: Storage, ops: seq<PutOp>, ns: string)
    requires ops != [] && !PutTo(Front(ops), ns) && ns !in storage
    ensures var op := Last(ops);
            if op.ns == ns then Holds(PutInto(storage, op), ops, ns, |ops| - 1) else ns !in PutInto(storage, op)
  {
    var op := Last(ops);
    PutOnNone(storage, op.ns, op.id, op.saved, ns);
    if op.ns == ns {
      forall k | 0 <= k < |ops| - 1 ensures ops[k].ns != ns {
        assert Front(ops)[k] == ops[k];
      }
      FirstIsNewest(ops, ns);
    }
  }

  // ----- The blobs of the newest put

  /** What a key is worth after the rest of the puts: the last value any of them added, else the one before. */
  function ValueAfter(ops: seq<PutOp>, k: BlobKey, value: Typed): Typed {
    if ops == [] then value
    else if k in Last(ops).added then Last(ops).added[k]
    else ValueAfter(Front(ops), k, value)
  }

  /** The namespace holds this one checkpoint, and its blob for the channel is there with this value. */
  ghost predicate HasBlob(serde: Serde, cached: Option<Payload>, thread: string, ns: string, id: string, saved: Saved,
                          channel: string, value: Typed) {
    && cached.Some? && ns in cached.value.storage && cached.value.storage[ns] == map[id := saved]
    && serde(saved.dumped).Some? && channel in serde(saved.dumped).value
    && var k := BlobKey(thread, ns, channel, serde(saved.dumped).value[channel]);
       k in cached.value.blobs && cached.value.blobs[k] == value
  }

  /** A put that does not displace the checkpoint leaves it its blob, with the value it adds for that key if any. */
  lemma PutLeavesBlob(serde: Serde, cached: Option<Payload>, thread: string, op: PutOp, ns: string, id: string, saved: Saved,
                      channel: string, value: Typed)
    requires cached.Some? && Owned(cached.value, thread)
    requires HasBlob(serde, cached, thread, ns, id, saved, channel, value)
    requires op.ns != ns || Before(op.id, id)
    ensures HasBlob(serde, Put(serde, op.ws, cached, thread, op.ns, op.id, op.saved, op.added), thread, ns, id, saved, channel,
                    ValueAfter([op], BlobKey(thread, ns, channel, serde(saved.dumped).value[channel]), value))
  {
    var k := BlobKey(thread, ns, channel, serde(saved.dumped).value[channel]);
    assert Front([op]) == [];
    PutStorage(serde, op.ws, cached, thread, op.ns, op.id, op.saved, op.added);
    PutOnOne(cached.value.storage, op.ns, op.id, op.saved, ns, id, saved);
    LoadedPart(op.ws, thread, cached.value);
    var loaded := Loaded(op.ws, thread, cached);
    var full := With(loaded, thread, op.ns, op.id, op.saved, op.added);
    PersistedOf(serde, full, thread, op.ns, op.id);
    LatestStays(Namespaces(full, thread), ns, id, saved, op, cached.value.storage);
    assert KeepsBlob(serde, Namespaces(full, thread), ns, channel, k.version);
    assert k in BlobsOf(loaded.blobs, thread);
  }

  lemma LatestStays(storage: Storage, ns: string, id: string, saved: Saved, op: PutOp, before: Storage)
    requires ns in before && before[ns] == map[id := saved]
    requires storage == before[op.ns := (if op.ns in before then before[op.ns] else map[])[op.id := op.saved]]
    requires op.ns != ns || Before(op.id, id)
    ensures ns in storage && storage[ns] != map[] && Latest(storage[ns].Keys) == id && storage[ns][id] == saved
  {
    if op.ns == ns {
      assert storage[ns].Keys == {id, op.id};
      OneOfTwo(id, op.id);
      LessIsTotal(Codes(id), Codes(id));
    } else {
      assert storage[ns].Keys == {id};
      LatestOfOne(id);
    }
  }

  /**
   The newest checkpoint keeps every blob it had when it was put, through all later puts; only a put that adds the
   very same channel version changes its value.
   */
  lemma {:induction false} NewestPutKeepsItsBlobs(serde: Serde, thread: string, ops: seq<PutOp>, ns: string, w: nat,
                                                  channel: string, value: Typed)
    requires Newest(ops, ns, w)
    requires HasBlob(serde, AfterPuts(serde, thread, ops[..w + 1]), thread, ns, ops[w].id, ops[w].saved, channel, value)
    ensures HasBlob(serde, AfterPuts(serde, thread, ops), thread, ns, ops[w].id, ops[w].saved, channel,
                    ValueAfter(ops[w + 1..], BlobKey(thread, ns, channel, serde(ops[w].saved.dumped).value[channel]), value))
  {
    if w == |ops| - 1 {
      assert ops[..w + 1] == ops && ops[w + 1..] == [];
    } else {
      var front := Front(ops);
      NewestBefore(ops, ns, w);
      assert front[..w + 1] == ops[..w + 1] && front[w] == ops[w];
      NewestPutKeepsItsBlobs(serde, thread, front, ns, w, channel, value);
      LaterPut(serde, thread, ops, ns, w, channel, value);
    }
  }

  lemma LaterPut(serde: Serde, thread: string, ops: seq<PutOp>, ns: string, w: nat, channel: string, value: Typed)
    requires w < |ops| - 1 && (Last(ops).ns != ns || Before(Last(ops).id, ops[w].id))
    requires serde(ops[w].saved.dumped).Some? && channel in serde(ops[w].saved.dumped).value
    requires var k := BlobKey(thread, ns, channel, serde(ops[w].saved.dumped).value[channel]);
             HasBlob(serde, AfterPuts(serde, thread, Front(ops)), thread, ns, ops[w].id, ops[w].saved, channel,
                     ValueAfter(Front(ops)[w + 1..], k, value))
    ensures var k := BlobKey(thread, ns, channel, serde(ops[w].saved.dumped).value[channel]);
            HasBlob(serde, AfterPuts(serde, thread, ops), thread, ns, ops[w].id, ops[w].saved, channel,
                    ValueAfter(ops[w + 1..], k, value))
  {
    var k := BlobKey(thread, ns, channel, serde(ops[w].saved.dumped).value[channel]);
    AfterPutsIsOwned(serde, thread, Front(ops));
    PutLeavesBlob(serde, AfterPuts(serde, thread, Front(ops)), thread, Last(ops), ns, ops[w].id, ops[w].saved, channel,
                  ValueAfter(Front(ops)[w + 1..], k, value));
    ValueAfterNext(ops, w + 1, k, value);
  }

  lemma ValueAfterNext(ops: seq<PutOp>, from: nat, k: BlobKey, value: Typed)
    requires from < |ops|
    ensures ValueAfter(ops[from..], k, value) == ValueAfter([Last(ops)], k, ValueAfter(Front(ops)[from..], k, value))
  {
    assert Front(ops[from..]) == Front(ops)[from..] && Front([Last(ops)]) == [];
  }

  lemma NewestBefore(ops: seq<PutOp>, ns: string, w: nat)
    requires Newest(ops, ns, w) && w < |ops| - 1
    ensures Newest(Front(ops), ns, w)
    ensures Last(ops).ns == ns ==> Before(Last(ops).id, ops[w].id)
  {
    forall k | 0 <= k < |ops| - 1 ensures Front(ops)[k] == ops[k] {}
    assert ops[|ops| - 1] == Last(ops);
    LessIsTotal(Codes(Last(ops).id), Codes(ops[w].id));
    CodesDiffer(Last(ops).id, ops[w].id);
  }

  // ----- The saver, updated in place

  const KEY_PREFIX := "cs:session:"

  function CacheKey(thread: string): string {
    KEY_PREFIX + "{" + thread + "}"
  }

  lemma CacheKeysDiffer(a: string, b: string)
    ensures CacheKey(a) == CacheKey(b) ==> a == b
  {
    var n := |KEY_PREFIX| + 1;
    assert CacheKey(a)[n..|CacheKey(a)| - 1] == a;
    assert CacheKey(b)[n..|CacheKey(b)| - 1] == b;
  }

  class SessionCache {
    var entries: map<string, Raw>

    constructor ()
      ensures entries == map[]
    {
      entries := map[];
    }
  }

  /** What a load of the thread would find. */
  function Cached(entries: map<string, Raw>, thread: string): Option<Payload> {
    if CacheKey(thread) in entries then Decode(entries[CacheKey(thread)]) else None
  }

  /** Every other thread finds in the cache what it found before. */
  ghost predicate OthersCached(before: map<string, Raw>, after: map<string, Raw>, thread: string) {
    forall other :: other != thread ==> Cached(after, other) == Cached(before, other)
  }

  /** The namespaces in `todo` are as they were, the others pruned. */
  ghost predicate PartlyPruned(before: Storage, now: Storage, todo: set<string>) {
    && (forall ns :: ns in now <==> ns in before && (ns in todo || before[ns] != map[]))
    && (forall ns :: ns in now ==> now[ns] == if ns in todo then before[ns] else PrunedStorage(before)[ns])
  }

  lemma DropNamespace(before: Storage, now: Storage, todo: set<string>, ns: string)
    requires PartlyPruned(before, now, todo + {ns}) && ns !in todo && ns in before && before[ns] == map[]
    ensures PartlyPruned(before, now - {ns}, todo)
  {}

  lemma KeepNamespace(before: Storage, now: Storage, todo: set<string>, ns: string)
    requires PartlyPruned(before, now, todo + {ns}) && ns !in todo && ns in before && before[ns] != map[]
    ensures var latest := Latest(before[ns].Keys);
            PartlyPruned(before, now[ns := map[latest := before[ns][latest]]], todo)
  {}

  lemma AllPruned(before: Storage, now: Storage)
    requires PartlyPruned(before, now, {})
    ensures now == PrunedStorage(before)
  {}

  /** Of the namespaces not in `todo`, what to keep has been noted. */
  ghost predicate PartlyNoted(serde: Serde, before: Storage, thread: string, todo: set<string>,
                              checkpoints: set<(string, string)>, blobs: set<BlobKey>) {
    && (forall ns, id :: (ns, id) in checkpoints <==> ns !in todo && KeepsCheckpoint(before, ns, id))
    && (forall k :: k in blobs <==> k.thread == thread && k.ns !in todo && KeepsBlob(serde, before, k.ns, k.channel, k.version))
  }

  /** The blob keys that a checkpoint's channel versions name. */
  function NamedBlobs(serde: Serde, thread: string, ns: string, dumped: Typed): set<BlobKey> {
    var versions := serde(dumped);
    if versions.None? then {}
    else set channel | channel in versions.value :: BlobKey(thread, ns, channel, versions.value[channel])
  }

  lemma NoteNamespace(serde: Serde, before: Storage, thread: string, todo: set<string>,
                      checkpoints: set<(string, string)>, blobs: set<BlobKey>, ns: string)
    requires ns in todo && ns in before && PartlyNoted(serde, before, thread, todo, checkpoints, blobs)
    ensures before[ns] == map[] ==> PartlyNoted(serde, before, thread, todo - {ns}, checkpoints, blobs)
    ensures before[ns] != map[] ==>
              var latest := Latest(before[ns].Keys);
              PartlyNoted(serde, before, thread, todo - {ns}, checkpoints + {(ns, latest)},
                          blobs + NamedBlobs(serde, thread, ns, before[ns][latest].dumped))
  {
    if before[ns] != map[] {
      var latest := Latest(before[ns].Keys);
      forall k ensures k in NamedBlobs(serde, thread, ns, before[ns][latest].dumped) <==>
                         k.thread == thread && k.ns == ns && KeepsBlob(serde, before, ns, k.channel, k.version)
      {
        assert k == BlobKey(k.thread, k.ns, k.channel, k.version);
      }
    }
  }

  class CachedInMemorySaver {
    var storage: map<string, Storage>
    var writes: Writes
    var blobs: Blobs
    const cache: SessionCache
    const serde: Serde

    ghost function View(): Workspace
      reads this
    {
      Workspace(storage, writes, blobs)
    }

    constructor (cache: SessionCache, serde: Serde)
      ensures this.cache == cache && this.serde == serde && View() == Workspace(map[], map[], map[])
    {
      storage, writes, blobs := map[], map[], map[];
      this.cache, this.serde := cache, serde;
    }

    method DropWrites(gone: set<WriteKey>)
      modifies this
      ensures storage == old(storage) && blobs == old(blobs) && writes == old(writes) - gone
    {
      var todo := gone;
      while todo != {}
        invariant todo <= gone && storage == old(storage) && blobs == old(blobs) && writes == old(writes) - (gone - todo)
        decreases todo
      {
        var key :| key in todo;
        writes := writes - {key};
        todo := todo - {key};
      }
    }

    method DropBlobs(gone: set<BlobKey>)
      modifies this
      ensures storage == old(storage) && writes == old(writes) && blobs == old(blobs) - gone
    {
      var todo := gone;
      while todo != {}
        invariant todo <= gone && storage == old(storage) && writes == old(writes) && blobs == old(blobs) - (gone - todo)
        decreases todo
      {
        var key :| key in todo;
        blobs := blobs - {key};
        todo := todo - {key};
      }
    }

    method EvictThread(thread: string)
      modifies this
      ensures View() == Evicted(old(View()), thread)
    {
      storage := storage - {thread};
      DropWrites(set k | k in writes && k.thread == thread);
      DropBlobs(set k | k in blobs && k.thread == thread);
    }

    /** Replace the thread's part by what the cache has; an entry that does not decode is deleted. */
    method Load(thread: string)
      modifies this, cache
      ensures View() == Loaded(old(View()), thread, old(Cached(cache.entries, thread)))
      ensures Cached(cache.entries, thread) == old(Cached(cache.entries, thread))
      ensures OthersCached(old(cache.entries), cache.entries, thread)
    {
      var key := CacheKey(thread);
      var payload: Option<Payload> := None;
      forall other { CacheKeysDiffer(other, thread); }
      if key in cache.entries && !cache.entries[key].Blank? {
        payload := DecodeCheckpointBlob(cache.entries[key]);
        if payload.None? {
          cache.entries := cache.entries - {key};
        }
      }
      EvictThread(thread);
      if payload.None? {
        return;
      }
      var p := payload.value;
      if p.storage != map[] {
        storage := storage[thread := p.storage];
      }
      writes := writes + map k | k in p.writes :: (if k in writes then writes[k] else map[]) + p.writes[k];
      blobs := blobs + p.blobs;
    }

    /** Walk the namespaces: drop empty ones, keep the newest checkpoint, and note what it still needs. */
    method KeepNewest(thread: string) returns (keepCheckpoints: set<(string, string)>, keepBlobs: set<BlobKey>)
      requires thread in storage
      modifies this
      ensures writes == old(writes) && blobs == old(blobs)
      ensures storage == old(storage)[thread := PrunedStorage(old(storage[thread]))]
      ensures forall ns, id :: (ns, id) in keepCheckpoints <==> KeepsCheckpoint(old(storage[thread]), ns, id)
      ensures forall k :: k in keepBlobs <==>
                k.thread == thread && KeepsBlob(serde, old(storage[thread]), k.ns, k.channel, k.version)
    {
      var nsMap := storage[thread];
      ghost var before := nsMap;
      var todo := nsMap.Keys;
      keepCheckpoints, keepBlobs := {}, {};
      while todo != {}
        invariant storage == old(storage) && writes == old(writes) && blobs == old(blobs)
        invariant todo <= before.Keys && PartlyPruned(before, nsMap, todo)
        invariant PartlyNoted(serde, before, thread, todo, keepCheckpoints, keepBlobs)
        decreases todo
      {
        var ns :| ns in todo;
        NoteNamespace(serde, before, thread, todo, keepCheckpoints, keepBlobs, ns);
        assert todo == (todo - {ns}) + {ns};
        todo := todo - {ns};
        var checkpoints := nsMap[ns];
        assert checkpoints == before[ns];
        if checkpoints == map[] {
          DropNamespace(before, nsMap, todo, ns);
          nsMap := nsMap - {ns};
        } else {
          var latest := Latest(checkpoints.Keys);
          KeepNamespace(before, nsMap, todo, ns);
          nsMap := nsMap[ns := map[latest := checkpoints[latest]]];
          keepCheckpoints := keepCheckpoints + {(ns, latest)};
          keepBlobs := keepBlobs + NamedBlobs(serde, thread, ns, checkpoints[latest].dumped);
        }
      }
      AllPruned(before, nsMap);
      storage := storage[thread := nsMap];
    }

    method PruneThread(thread: string)
      modifies this
      ensures View() == Pruned(serde, old(View()), thread)
    {
      if thread !in storage || storage[thread] == map[] {
        return;
      }
      var keepCheckpoints, keepBlobs := KeepNewest(thread);
      DropWrites(set k | k in writes && k.thread == thread && (k.ns, k.checkpoint) !in keepCheckpoints);
      DropBlobs(set k | k in blobs && k.thread == thread && k !in keepBlobs);
      assert writes == Pruned(serde, old(View()), thread).writes;
      assert blobs == Pruned(serde, old(View()), thread).blobs;
    }

    method Persist(thread: string)
      modifies this, cache
      ensures View() == Pruned(serde, old(View()), thread)
      ensures Cached(cache.entries, thread) == Persisted(serde, old(View()), thread)
      ensures OthersCached(old(cache.entries), cache.entries, thread)
    {
      var key := CacheKey(thread);
      forall other { CacheKeysDiffer(other, thread); }
      PruneThread(thread);
      if thread !in storage || storage[thread] == map[] {
        cache.entries := cache.entries - {key};
        return;
      }
      var mine := Payload(storage[thread],
                          map k | k in writes && k.thread == thread :: writes[k],
                          map k | k in blobs && k.thread == thread :: blobs[k]);
      var raw := Encode(mine);
      cache.entries := cache.entries[key := raw];
    }

    /** Load, add, write back, forget: between calls the workspace holds nothing of the thread. */
    method PutCheckpoint(thread: string, ns: string, id: string, saved: Saved, added: Blobs)
      requires OfThread(added, thread)
      modifies this, cache
      ensures Cached(cache.entries, thread) ==
              Put(serde, old(View()), old(Cached(cache.entries, thread)), thread, ns, id, saved, added)
      ensures OthersCached(old(cache.entries), cache.entries, thread)
      ensures Part(View(), thread) == NOTHING
      ensures var found := old(Cached(cache.entries, thread));
              (found.Some? ==> Owned(found.value, thread)) ==>
                forall other :: other != thread ==> Part(View(), other) == old(Part(View(), other))
    {
      ghost var before, found := View(), Cached(cache.entries, thread);
      Load(thread);
      ghost var loaded := View();
      var checkpoints := if thread in storage && ns in storage[thread] then storage[thread][ns] else map[];
      storage := storage[thread := (if thread in storage then storage[thread] else map[])[ns := checkpoints[id := saved]]];
      blobs := blobs + added;
      assert View() == With(loaded, thread, ns, id, saved, added);
      Persist(thread);
      ghost var pruned := View();
      EvictThread(thread);
      EvictedPart(pruned, thread);
      if found.Some? ==> Owned(found.value, thread) {
        forall other | other != thread ensures Part(View(), other) == Part(before, other) {
          OthersUntouchedByPut(serde, before, found, thread, ns, id, saved, added, other);
        }
      }
    }

    method DeleteThread(thread: string)
      modifies this, cache
      ensures View() == Evicted(old(View()), thread)
      ensures Cached(cache.entries, thread) == None && OthersCached(old(cache.entries), cache.entries, thread)
    {
      forall other { CacheKeysDiffer(other, thread); }
      EvictThread(thread);
      cache.entries := cache.entries - {CacheKey(thread)};
    }
  }
}
