/** The two-tier state store: a state lives either in the legacy blob
    storage, at its legacy URI, or in the flow namespace's key-value store,
    at its flat key. Reads and writes migrate it from the first tier to the
    second. Every operation is a pure transition on the pair of tiers. */
module StateStore {
  import opened Wrappers
  import opened StateKeys

  newtype byte = x: int | 0 <= x < 256
  type Bytes = seq<byte>

  /** What one run context sees of storage: the blob storage, addressed by
      URI, and the key-value store of the flow's namespace. */
  datatype Store = Store(blob: map<string, Bytes>, kv: map<string, Bytes>)

  /** The run context a state store is bound to. */
  datatype Context = Context(flow: FlowInfo, naming: Naming)

  /** The address of one state: its name, optional sub-name and optional
      task-run value. */
  datatype StateId = StateId(name: string, subName: Option<string>, taskRunValue: Option<string>)

  /** Raised when neither tier holds the state. */
  datatype StoreError = NotFound(message: string)

  /** The tiers after an operation, and what the operation returned. */
  datatype Outcome<+R> = Outcome(store: Store, result: R)

  function KvKey(ctx: Context, id: StateId): string
  {
    FlatKey(ctx.naming, ctx.flow.id, id.name, id.subName, id.taskRunValue)
  }

  function BlobUri(ctx: Context, id: StateId): string
  {
    LegacyUri(ctx.naming, ctx.flow, id.name, id.subName, id.taskRunValue)
  }

  /** A state is held by at most one tier. */
  ghost predicate SingleTier(ctx: Context, st: Store, id: StateId)
  {
    !(BlobUri(ctx, id) in st.blob && KvKey(ctx, id) in st.kv)
  }

  /** Deletes the legacy blob, if any; tells whether there was one. */
  function DeleteOldStateStoreFile(ctx: Context, st: Store, id: StateId): (o: Outcome<bool>)
    ensures o.result <==> BlobUri(ctx, id) in st.blob
    ensures BlobUri(ctx, id) !in o.store.blob
    ensures o.store.blob - {BlobUri(ctx, id)} == st.blob - {BlobUri(ctx, id)}
    ensures o.store.kv == st.kv
  {
    var uri := BlobUri(ctx, id);
    Outcome(Store(st.blob - {uri}, st.kv), uri in st.blob)
  }

  /** Writes `value` to the key-value tier, removing any legacy blob first;
      returns the key written. */
  function PutState(ctx: Context, st: Store, id: StateId, value: Bytes): (o: Outcome<string>)
    ensures o.result == KvKey(ctx, id)
    ensures BlobUri(ctx, id) !in o.store.blob
    ensures o.store.blob - {BlobUri(ctx, id)} == st.blob - {BlobUri(ctx, id)}
    ensures o.result in o.store.kv && o.store.kv[o.result] == value
    ensures o.store.kv - {o.result} == st.kv - {o.result}
  {
    var cleared := DeleteOldStateStoreFile(ctx, st, id).store;
    var key := KvKey(ctx, id);
    Outcome(Store(cleared.blob, cleared.kv[key := value]), key)
  }

  /** Reads a state. A legacy blob wins and is migrated to the key-value
      tier; otherwise the key-value entry is returned, or NotFound. */
  function GetState(ctx: Context, st: Store, id: StateId): (o: Outcome<Result<Bytes, StoreError>>)
    ensures BlobUri(ctx, id) !in o.store.blob
    // migration on read
    ensures BlobUri(ctx, id) in st.blob ==>
              && o.result == Success(st.blob[BlobUri(ctx, id)])
              && o.store.blob - {BlobUri(ctx, id)} == st.blob - {BlobUri(ctx, id)}
              && KvKey(ctx, id) in o.store.kv
              && o.store.kv[KvKey(ctx, id)] == st.blob[BlobUri(ctx, id)]
              && o.store.kv - {KvKey(ctx, id)} == st.kv - {KvKey(ctx, id)}
    // key-value path: nothing changes
    ensures BlobUri(ctx, id) !in st.blob ==>
              && o.store == st
              && (KvKey(ctx, id) in st.kv ==> o.result == Success(st.kv[KvKey(ctx, id)]))
              && (KvKey(ctx, id) !in st.kv ==>
                    o.result == Failure(NotFound("State " + KvKey(ctx, id) + " not found")))
  {
    var uri := BlobUri(ctx, id);
    if uri in st.blob then
      var bytes := st.blob[uri];
      var cleared := DeleteOldStateStoreFile(ctx, st, id).store;
      var written := PutState(ctx, cleared, id, bytes).store;
      Outcome(written, Success(bytes))
    else
      var key := KvKey(ctx, id);
      if key in st.kv then Outcome(st, Success(st.kv[key]))
      else Outcome(st, Failure(NotFound("State " + key + " not found")))
  }

  /** Deletes a state. A legacy blob is deleted alone, and the answer is
      true; otherwise the answer is whether the key-value tier held it. */
  function DeleteState(ctx: Context, st: Store, id: StateId): (o: Outcome<bool>)
    ensures BlobUri(ctx, id) !in o.store.blob
    ensures BlobUri(ctx, id) in st.blob ==>
              && o.result
              && o.store.kv == st.kv
              && o.store.blob - {BlobUri(ctx, id)} == st.blob - {BlobUri(ctx, id)}
    ensures BlobUri(ctx, id) !in st.blob ==>
              && (o.result <==> KvKey(ctx, id) in st.kv)
              && KvKey(ctx, id) !in o.store.kv
              && o.store.kv - {KvKey(ctx, id)} == st.kv - {KvKey(ctx, id)}
              && o.store.blob == st.blob
  {
    var legacy := DeleteOldStateStoreFile(ctx, st, id);
    if !legacy.result then
      var key := KvKey(ctx, id);
      Outcome(Store(legacy.store.blob, legacy.store.kv - {key}), key in legacy.store.kv)
    else
      Outcome(legacy.store, true)
  }

  // ---------------------------------------------------------------------------
  // Properties relating several calls.

  /** A get, put or delete on `id` leaves `id` in one tier, and keeps any
      other state in one tier unless the two share a key-value key but not
      a legacy URI. */
  lemma OperationsKeepSingleTier(ctx: Context, st: Store, id: StateId, other: StateId, value: Bytes)
    requires other == id || SingleTier(ctx, st, other)
    requires KvKey(ctx, id) == KvKey(ctx, other) ==> BlobUri(ctx, id) == BlobUri(ctx, other)
    ensures SingleTier(ctx, GetState(ctx, st, id).store, other)
    ensures SingleTier(ctx, PutState(ctx, st, id, value).store, other)
    ensures SingleTier(ctx, DeleteState(ctx, st, id).store, other)
  {
  }

  /** Two states can share a key-value key without sharing a legacy URI:
      state "a_b" and state "a" with sub-name "b". Writing the first while
      the second still has a legacy blob puts the second in both tiers, and
      reading the second then replaces the first's value with its blob. */
  lemma SharedKeyBreaksSingleTier(ctx: Context, st: Store, a: string, b: string,
                                  taskRunValue: Option<string>, value: Bytes)
    requires BlobUri(ctx, StateId(a, Some(b), taskRunValue)) in st.blob
    ensures var merged := StateId(a + "_" + b, None, taskRunValue);
            var split := StateId(a, Some(b), taskRunValue);
            var put := PutState(ctx, st, merged, value).store;
            && !SingleTier(ctx, put, split)
            && GetState(ctx, GetState(ctx, put, split).store, merged).result
               == Success(st.blob[BlobUri(ctx, split)])
  {
    var merged := StateId(a + "_" + b, None, taskRunValue);
    var split := StateId(a, Some(b), taskRunValue);
    FlatKeyMergesSubNameIntoStateName(ctx.naming, ctx.flow, a, b, taskRunValue);
    assert KvKey(ctx, merged) == KvKey(ctx, split);
    assert BlobUri(ctx, merged) != BlobUri(ctx, split);
  }

  /** Two states can share a legacy URI without sharing a key-value key:
      state "a/b" and state "a" with sub-name "b", both without a task-run
      value. Reading the first migrates the second's legacy blob into the
      first's key, after which the second is no longer found. */
  lemma SharedUriMigratesOtherState(ctx: Context, st: Store, a: string, b: string)
    requires BlobUri(ctx, StateId(a, Some(b), None)) in st.blob
    requires KvKey(ctx, StateId(a, Some(b), None)) !in st.kv
    ensures var slashed := StateId(a + "/" + b, None, None);
            var split := StateId(a, Some(b), None);
            var read := GetState(ctx, st, slashed);
            && read.result == Success(st.blob[BlobUri(ctx, split)])
            && GetState(ctx, read.store, split).result
               == Failure(NotFound("State " + KvKey(ctx, split) + " not found"))
  {
    var slashed := StateId(a + "/" + b, None, None);
    var split := StateId(a, Some(b), None);
    LegacyUriMergesSubNameIntoStateName(ctx.naming, ctx.flow, a, b);
    assert BlobUri(ctx, slashed) == BlobUri(ctx, split);
    assert KvKey(ctx, slashed) != KvKey(ctx, split);
  }

  /** A second read returns the same bytes through the key-value tier alone. */
  lemma GetStateTwice(ctx: Context, st: Store, id: StateId)
    requires GetState(ctx, st, id).result.Success?
    ensures var first := GetState(ctx, st, id);
            var second := GetState(ctx, first.store, id);
            && second.result == first.result
            && second.store == first.store
            && KvKey(ctx, id) in first.store.kv
  {
  }

  /** A read after a write returns the written bytes and changes nothing. */
  lemma PutThenGet(ctx: Context, st: Store, id: StateId, value: Bytes)
    ensures var put := PutState(ctx, st, id, value).store;
            GetState(ctx, put, id) == Outcome(put, Success(value))
  {
  }

  /** The second of two writes wins, as if the first never happened. */
  lemma PutStateOverwrites(ctx: Context, st: Store, id: StateId, v1: Bytes, v2: Bytes)
    ensures var twice := PutState(ctx, PutState(ctx, st, id, v1).store, id, v2);
            && twice == PutState(ctx, st, id, v2)
            && GetState(ctx, twice.store, id).result == Success(v2)
  {
    var once := PutState(ctx, st, id, v1).store;
    var twice := PutState(ctx, once, id, v2).store;
    var direct := PutState(ctx, st, id, v2).store;
    assert twice.blob == direct.blob;
    assert twice.kv == direct.kv;
  }

  /** Repeating a write changes nothing more. */
  lemma PutStateIdempotent(ctx: Context, st: Store, id: StateId, value: Bytes)
    ensures var once := PutState(ctx, st, id, value);
            PutState(ctx, once.store, id, value) == once
  {
    var once := PutState(ctx, st, id, value).store;
    var twice := PutState(ctx, once, id, value).store;
    assert twice.blob == once.blob;
    assert twice.kv == once.kv;
  }

  /** With the state in at most one tier, a delete leaves nothing to read. */
  lemma DeleteThenGetNotFound(ctx: Context, st: Store, id: StateId)
    requires SingleTier(ctx, st, id)
    ensures var del := DeleteState(ctx, st, id).store;
            GetState(ctx, del, id).result == Failure(NotFound("State " + KvKey(ctx, id) + " not found"))
  {
  }

  /** Delete's short-circuit relies on the single-tier invariant: with both
      tiers holding the state, delete answers true and the key-value copy
      is read back afterwards. */
  lemma DeleteLeavesKvCopyWhenBothTiersHold(ctx: Context, st: Store, id: StateId)
    requires BlobUri(ctx, id) in st.blob && KvKey(ctx, id) in st.kv
    ensures var del := DeleteState(ctx, st, id);
            && del.result
            && GetState(ctx, del.store, id).result == Success(st.kv[KvKey(ctx, id)])
  {
  }
}
