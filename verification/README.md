# Kestra state store and deferred properties, modelled in Dafny

This project models two small mechanisms of the Kestra workflow runtime:

- **`StateStore`** persists per-task state. Each state is addressed by the flow id, a state
  name, an optional sub-name and an optional task-run value. It can live in two tiers:
  - the legacy blob storage, at a `kestra:/…` URI;
  - the flow namespace's key-value (KV) store, at a flat key.

  `getState`, `putState` and `deleteState` move state from the legacy tier into the KV tier.
- **`Property<T>`** is a plugin property. It holds an `expression` and a cached `value`.
  `as` renders the expression through the run context and converts the result to the target
  type. It does this only while the cache is empty, then caches the result. `of(v)` builds a
  property whose cache already holds `v`. On the wire a property is only its expression.

Modules:

- `Wrappers` (`wrappers.dfy`): `Option` for Java's `null` and `Result` for thrown exceptions.
- `StateKeys` (`state_keys.dfy`): the two key encodings. `Join` and the segment lists are an
  independent reference definition. The encodings are proved equal to them.
- `StateStore` (`state_store.dfy`): the store is a pair of maps `Store(blob, kv)`. Each
  operation is a pure function that returns the new pair and its answer, in an `Outcome`.
- `Properties` (`property.dfy`): `Property(expression, value: Option<T>)`. `As` is a pure
  transition that returns the new property, the result, and whether the renderer ran.
  `AsEach` runs a sequence of `as` calls with one context per call.

Collaborators are passed in as function-typed parameters. No property of them is assumed:
- `Slugify.of` and `Hashing.hashToString` are the `Naming` record. They need not be injective.
- The run context's `render` is a `Renderer`, `string -> Result<string, string>`. A different
  context is a different renderer.
- Jackson's `convertValue` has two sides. `encode: T -> string` is used by `of`.
  `Converter<T>`, `string -> Result<Option<T>, string>`, is used by `as`. `Success(None)` is a
  conversion that yields `null`.

Two behaviours of the code are worth stating plainly:

- The two key encodings do not share one segment list. The contracts of `LegacyUri` and
  `FlatKey` state what the code does:
  - in the legacy URI the sub-name is the last segment, after the hashed task-run value;
  - in the flat key it is glued to the state name as `"_" + sub`, before the hash.

  One consequence, proved in `FlatKeyMergesSubNameIntoStateName`: a state named `a_b` with no
  sub-name shares its KV key with state `a`, sub-name `b`. Their legacy URIs differ.
  `SharedKeyBreaksSingleTier` shows that this lets one state sit in both tiers without any
  concurrency, and lets a read of one state overwrite the other's value.

  The mirror case, proved in `LegacyUriMergesSubNameIntoStateName`: without a task-run value,
  a state named `a/b` shares its legacy URI with state `a`, sub-name `b`. Their KV keys
  differ. `SharedUriMigratesOtherState` shows that reading `a/b` migrates the legacy blob of
  (`a`, `b`) into `a/b`'s own key, after which (`a`, `b`) is no longer found.
- A failed legacy delete inside `getState` (StateStore.java:32) throws an `IOException`
  before the bytes are read and before `putState` runs. The catch at StateStore.java:37 then
  reads the KV tier instead. Such faults are not modelled (see below).

## Model

| member | source | states |
|---|---|---|
| StateKeys.ReplaceDots | core/src/main/java/io/kestra/core/storages/StateStore.java:85 | the namespace path has the namespace's length; each `.` becomes `/` and every other character stays in place |
| StateKeys.NameSuffix | core/src/main/java/io/kestra/core/storages/StateStore.java:97-99 | empty exactly when there is no sub-name; otherwise `_` followed by the sub-name |
| StateKeys.StatePrefix | core/src/main/java/io/kestra/core/storages/StateStore.java:88-90 | `slug(flowId)`, `states`, the state name and, for a present task-run value, its hash, joined by the separator |
| StateKeys.FlatKey | core/src/main/java/io/kestra/core/storages/StateStore.java:60 | the KV key is `slug(flowId)`, `states`, `stateName` plus an optional `_sub`, then an optional `hash(taskRunValue)`, joined by `_` |
| StateKeys.LegacyUri | core/src/main/java/io/kestra/core/storages/StateStore.java:84-86 | the legacy URI is `kestra:/`, the namespace path, `/`, then `slug(flowId)`, `states`, `stateName`, an optional hash, and an optional sub-name joined by `/` |
| StateKeys.EncodingsOrderSubNameDifferently | core/src/main/java/io/kestra/core/storages/StateStore.java:84-90 | with both a sub-name and a task-run value, the KV key ends with `_` + hash, but the legacy URI ends with `/` + sub-name |
| StateKeys.FlatKeyMergesSubNameIntoStateName | core/src/main/java/io/kestra/core/storages/StateStore.java:84-99 | state `a_b` without a sub-name and state `a` with sub-name `b` get the same KV key but different legacy URIs |
| StateKeys.LegacyUriMergesSubNameIntoStateName | core/src/main/java/io/kestra/core/storages/StateStore.java:84-99 | without a task-run value, state `a/b` without a sub-name and state `a` with sub-name `b` get the same legacy URI but different KV keys |
| StateStore.DeleteOldStateStoreFile | core/src/main/java/io/kestra/core/storages/StateStore.java:92-95 | answers whether a legacy blob existed; afterwards it is gone, other blobs and the KV tier are untouched |
| StateStore.PutState | core/src/main/java/io/kestra/core/storages/StateStore.java:55-64 | returns the KV key; afterwards there is no legacy blob and the KV key holds the value; every other entry of either tier is unchanged |
| StateStore.GetState | core/src/main/java/io/kestra/core/storages/StateStore.java:27-45 | a legacy blob is returned and migrated: the blob is removed and the KV key holds its bytes. Otherwise nothing changes, and the result is the KV entry or NotFound with message `State <key> not found` |
| StateStore.DeleteState | core/src/main/java/io/kestra/core/storages/StateStore.java:73-82 | a legacy blob is deleted and `true` is returned, with the KV tier untouched; otherwise the answer is whether the KV key existed, and it is gone afterwards |
| StateStore.OperationsKeepSingleTier | core/src/main/java/io/kestra/core/storages/StateStore.java:27-82 | after any get, put or delete, the state operated on is not held by both tiers, and neither is any other state that was in one tier, unless the two share a KV key but not a legacy URI |
| StateStore.SharedKeyBreaksSingleTier | core/src/main/java/io/kestra/core/storages/StateStore.java:29-61 | writing state `a_b` while state (`a`, sub-name `b`) still has a legacy blob leaves the latter in both tiers; reading it then replaces `a_b`'s value with that blob |
| StateStore.SharedUriMigratesOtherState | core/src/main/java/io/kestra/core/storages/StateStore.java:29-44 | with (`a`, sub-name `b`) only in the legacy tier, reading `a/b` returns that blob, and (`a`, `b`) is then not found |
| StateStore.GetStateTwice | core/src/main/java/io/kestra/core/storages/StateStore.java:29-44 | after a successful read, a second read returns the same bytes from the KV tier and changes nothing |
| StateStore.PutThenGet | core/src/main/java/io/kestra/core/storages/StateStore.java:29-64 | a read after a write returns the written bytes and leaves both tiers as the write left them |
| StateStore.PutStateOverwrites | core/src/main/java/io/kestra/core/storages/StateStore.java:57-61 | two writes equal the second write alone, and a read then returns the second value |
| StateStore.PutStateIdempotent | core/src/main/java/io/kestra/core/storages/StateStore.java:57-61 | repeating a write leaves both tiers and the returned key as they were |
| StateStore.DeleteThenGetNotFound | core/src/main/java/io/kestra/core/storages/StateStore.java:73-82 | when at most one tier holds the state, a read after a delete fails with NotFound |
| StateStore.DeleteLeavesKvCopyWhenBothTiersHold | core/src/main/java/io/kestra/core/storages/StateStore.java:76-81 | if both tiers hold the state, delete answers `true` yet a later read returns the KV copy, so the short-circuit relies on the single-tier invariant |
| Properties.Of | core/src/main/java/io/kestra/core/models/Property.java:44-49 | the cache holds the literal and the serialised form is its encoding |
| Properties.As | core/src/main/java/io/kestra/core/models/Property.java:57-64 | a filled cache is returned without rendering. An empty cache is rendered then converted, and when both succeed the converted value is returned. A render or conversion failure reaches the caller unchanged, wrapped as the matching error, and caches nothing. A success is cached and returned. The expression never changes |
| Properties.FromExpression | core/src/main/java/io/kestra/core/models/Property.java:35-37 | the property built by the package constructor has the given expression and an empty cache |
| Properties.Serialize | core/src/main/java/io/kestra/core/models/Property.java:91-93 | the written string, read back, gives the property's expression with an empty cache; the cache is never written |
| Properties.Deserialize | core/src/main/java/io/kestra/core/models/Property.java:78-80 | the string read becomes the expression and the cache starts empty |
| Properties.SerializeRoundTrip | core/src/main/java/io/kestra/core/models/Property.java:67-93 | serialise-then-deserialise keeps the expression and empties the cache; deserialise-then-serialise returns the string read |
| Properties.CachedIgnoresContext | core/src/main/java/io/kestra/core/models/Property.java:58-63 | with a filled cache, `as` gives the same answer for every renderer and converter |
| Properties.LiteralNeverRenders | core/src/main/java/io/kestra/core/models/Property.java:44-63 | `as` on `of(v)` returns `v` without rendering, even if every render fails |
| Properties.NullConversionIsNotCached | core/src/main/java/io/kestra/core/models/Property.java:58-61 | a conversion to `null` returns `null` and leaves the cache empty, so the next `as` renders again |
| Properties.LiteralRoundTrip | core/src/main/java/io/kestra/core/models/Property.java:44-93 | `of(v)`, serialised and deserialised, resolves to `v` when the renderer leaves `encode(v)` unchanged and the conversion decodes it; the copy read back calls the renderer, unlike `of(v)` itself |
| Properties.AsEach | core/src/main/java/io/kestra/core/models/Property.java:57-64 | over any sequence of `as` calls the expression is unchanged and there is one result per call; an empty cache is rendered by the first call; a value the session caches is one some call returned |
| Properties.CachedSessionNeverRenders | core/src/main/java/io/kestra/core/models/Property.java:52-63 | with a filled cache, any sequence of calls with any contexts renders zero times, returns the cached value every time, and leaves the property unchanged |
| Properties.RendersAtMostOnce | core/src/main/java/io/kestra/core/models/Property.java:52-63 | if the first call caches a non-null value, every later call returns that same value and the renderer runs at most once in total |

## Left out

- I/O: payloads are `seq<byte>`, not input streams. The blob storage and the KV store are maps.
- Namespaces: the KV map is the flow namespace's store. Namespace isolation comes from which
  map is passed in.
- I/O faults other than "not found" are not modelled. This covers the catch in `getState` that
  also swallows faults from the migration branch and falls back to the KV tier, and faults
  from `deleteFile` or `put`.
- `URI.create` rejecting a malformed URI is not modelled. URIs are plain strings.
- KV TTL and metadata: `putState` always writes null metadata. `ResourceExpiredException`
  from an expired KV entry is not modelled.
- A KV entry whose value is `null` (the `requireNonNull` in `getState`) is not modelled: KV
  values are always byte sequences.
- The internals of `Slugify.of`, `Hashing.hashToString`, the template renderer and Jackson's
  `convertValue` are left out. They are function parameters with no assumed properties.
- Properties.Of: `encode` is total, so the case where `convertValue` throws while encoding a
  literal is not modelled. A `null` literal, whose encoding is a `null` expression, is also
  left out.
- A `null` expression is not modelled: the expression is always a string. Such an expression
  comes from the public no-argument constructor, `of(null)`, or deserialising a JSON object
  or array token. Scalar tokens such as `42` or `true` are read as their text, which the model
  covers as `Deserialize("42")`.
- Thread safety: `as` is documented as not thread-safe, and concurrent migrations can race.
  Both are outside this sequential model.
- `JsonFilter` and `DynamicPropertyExampleTask` are callers and wrappers, not part of this
  model.
