# Stellaroot metadata client — a Dafny model

This project models the core of the `libs/metadata` client of Stellaroot,
without its I/O. The client keeps two in-memory caches of `Metadata` records.
Players are keyed by UUID and have a secondary name index. Servers are keyed
by name. The caches follow a NATS key-value store through a change feed.

The model has four parts:

- **`Metadata`** (`metadata_types.dfy`). This is the value type: optional
  labels and optional annotations, each a string-to-string map. Go's nil map is
  `None` and is kept apart from an empty map. The pure `With…`/`Without…`
  functions specify the setters. The class `MetadataRef` holds the same two
  fields and runs the setters in place, as methods on `*Metadata` do.
- **Typed descriptors** (`constant.dfy`, `typed_access.dfy`). A descriptor is
  a key plus a parse/format pair of functions. The string, bool, UUID and enum
  families are modelled. Generic `Get` returns the absent / invalid / valid
  triple and generic `Set` stores the formatted text. UUID acceptance is a
  character-level predicate for the 8-4-4-4-12 hex layout of section 3 of
  RFC 4122. It is proved equal to a group-by-group description that follows
  the source's regular expression.
- **Cache transitions** (`cache_model.dfy`). These are pure functions for one
  watch record (put, delete, nil, undecodable payload) and for the warm-up
  fold. Lemmas cover idempotence, renames, deletes, soundness of the name index
  and label queries.
- **The client** (`client.dfy`). The class `Client` holds `playersCache`,
  `playersNameToUUID`, `serversCache` and the two buckets, plus a ghost log of
  published change events. Its methods run the warm-up loops, the per-record
  watch bodies, the receive loops, the lookups, the copy-on-write updates and
  the label queries. `scenarios.dfy` relates several operations: an update
  followed by its echo from the feed, a seeded server, and a rename followed by
  a delete.

Modelling choices:

- The name index is keyed by one constant, `CacheModel.NameIndexKey`, equal to
  `Constant.PlayerName` (`"player/name"`, per
  `libs/constant/constants_test.go:16`). The monolithic `client.go` uses this
  key. The split files `watchers.go` and `cache.go` use `constant.PlayerUsername`
  instead, whose value lives in `libs/constant/constants.go`, which is not part
  of this model.
- A bucket is `map<string, Option<Metadata>>`. Each key maps to what a reader
  decodes; `None` is a stored payload that is not valid JSON for a `Metadata`.
  A key missing from the map covers both a failed `Get` and a nil entry.
- JSON encoding is the function `Wire`. The struct tags say `omitempty`, so an
  empty map is not written and decodes as nil. An update's copy always has
  non-nil maps, so the echo of a write can differ from the copy in exactly
  this way.
- Listings, feed records and the connect, bucket and put outcomes are
  parameters. A put failure leaves the bucket unchanged.
- Caches hold `Metadata` values, not pointers. The core never mutates a
  cached record after inserting it: updates mutate an owned copy.
- A purge record of the store has its own operation, which
  `libs/metadata/watchers.go:61` and `:154` do not test for. So a purge takes
  the put path, and its empty payload fails to decode (`:84-87`, `:171-174`). The model writes it
  as `PutEntry(key, None)`. `CacheModel.PurgeIsSkipped` states the effect: the
  record is skipped, the purged player stays cached and no event is published.
  A server purge is skipped the same way.

The index updates behave as follows:

- A player delete removes the index entry for the deleted player's name
  whatever key that entry maps to (`libs/metadata/watchers.go:71-73`), not
  only when it still points at the deleted key.
  `CacheModel.DeleteDropsSharedName` shows the consequence: a second player
  with the same name can no longer be found by it.
- A put likewise drops the old name's entry unconditionally
  (`libs/metadata/watchers.go:101-103`).
- For players, an event's old value is set only when the cached player has a
  non-nil annotation map (`libs/metadata/watchers.go:64`, `:91`).
- Not every cached player with a non-empty name is guaranteed to be indexed
  (see `DeleteDropsSharedName`). The invariant the model proves is
  `IndexSound`: every index entry names a cached player that carries that
  non-empty name. Every put and delete preserves it, and so does the warm-up
  of a fresh client over any listing.

## Model

| member | source | states |
|---|---|---|
| `MetadataTypes.Metadata.GetLabel` | libs/metadata/types.go:23-29 | present iff the label map is non-nil and holds the key, and then the stored value |
| `MetadataTypes.Metadata.GetAnnotation` | libs/metadata/types.go:52-58 | present iff the annotation map is non-nil and holds the key, and then the stored value |
| `MetadataTypes.Metadata.HasLabel` | libs/metadata/types.go:37-42 | false on a nil label map; otherwise true iff the entry, read as "" when the key is missing, equals the value |
| `MetadataTypes.Metadata.HasLabels` | libs/metadata/types.go:73-84 | an empty requirement always matches; on nil labels only the empty requirement matches; otherwise true iff every required pair satisfies HasLabel |
| `MetadataTypes.Metadata.WithLabel` | libs/metadata/types.go:16-21 | SetLabel: afterwards the label map is non-nil, GetLabel(key) is the value, every other label reads as before, annotations unchanged |
| `MetadataTypes.Metadata.WithoutLabel` | libs/metadata/types.go:31-35 | DeleteLabel: the key reads as absent, other labels unchanged, a nil map stays nil, annotations unchanged |
| `MetadataTypes.Metadata.HasAnnotation` | libs/metadata/types.go:66-71 | false on a nil annotation map; otherwise the entry, read as "" when missing, equals the value |
| `MetadataTypes.Metadata.WithAnnotation` | libs/metadata/types.go:45-50 | SetAnnotation: allocates the map lazily, the key reads back the value, other annotations and labels unchanged |
| `MetadataTypes.Metadata.WithoutAnnotation` | libs/metadata/types.go:60-64 | DeleteAnnotation: the key reads as absent, others unchanged, nil stays nil, labels unchanged |
| `MetadataTypes.Metadata.WithBoolAnnotation` | libs/metadata/types.go:135-137 | SetBoolAnnotation followed by GetBoolAnnotation yields (b, true, nil); other annotations and labels unchanged |
| `MetadataTypes.Metadata.GetBoolAnnotation` | libs/metadata/types.go:144-157 | absent gives (false, false, nil); "true" and "false" give (that bool, true, nil), and a valid result is exactly the formatted bool; any text other than "true"/"false" gives (false, true, error naming key and text) |
| `MetadataTypes.MetadataRef.constructor` | libs/metadata/types.go:10-13 | a fresh reference holds the given value |
| `MetadataTypes.MetadataRef.SetLabel` | libs/metadata/types.go:16-21 | in-place update whose new value is WithLabel of the old |
| `MetadataTypes.MetadataRef.DeleteLabel` | libs/metadata/types.go:31-35 | in-place update whose new value is WithoutLabel of the old |
| `MetadataTypes.MetadataRef.SetAnnotation` | libs/metadata/types.go:45-50 | in-place update whose new value is WithAnnotation of the old |
| `MetadataTypes.MetadataRef.DeleteAnnotation` | libs/metadata/types.go:60-64 | in-place update whose new value is WithoutAnnotation of the old |
| `MetadataTypes.MetadataRef.SetBoolAnnotation` | libs/metadata/types.go:135-137 | in-place update storing the `%t` text of the bool |
| `MetadataTypes.DeleteLabelKeepsNil` | libs/metadata/types.go:31-35 | DeleteLabel on nil labels changes nothing |
| `MetadataTypes.LabelScenario` | libs/metadata/metadata_test.go:34-51 | empty metadata has no label; set env=prod reads back and matches; after delete it is absent |
| `MetadataTypes.MissingLabelReadsEmpty` | libs/metadata/types.go:37-42 | HasLabel(k, "") holds for an absent key in a non-nil map and fails on a nil map |
| `MetadataTypes.HasLabelsSingleton` | libs/metadata/types.go:73-84 | the one-pair requirement {k: v} matches exactly when HasLabel(k, v) |
| `MetadataTypes.InvalidBoolScenario` | libs/metadata/metadata_test.go:93-97 | "not-bool" under a key reads as present with a not-a-bool error |
| `Constant.NewStringAnnotationDesc` | libs/constant/descriptors.go:17-24 | Parse is the identity and never fails, and every value round-trips through Format and Parse |
| `Constant.NewBoolAnnotationDesc` | libs/constant/descriptors.go:26-47 | Parse succeeds iff the text is exactly "true" or "false", yields (s == "true"), otherwise (false, invalid-bool error); Format prints "true"/"false"; Parse(Format(b)) == (b, nil) |
| `Constant.UUIDPatternIsCanonical` | libs/constant/descriptors.go:58 | the regular expression's group structure (8, 4, 4, 4, 12 hex digits joined by hyphens, anchored) accepts exactly the 36-character strings with hyphens at 8, 13, 18, 23 and hex digits of either case elsewhere |
| `Constant.NewUUIDAnnotationDesc` | libs/constant/descriptors.go:60-72 | Parse returns the text unchanged with no error iff it is a canonical UUID, otherwise "" and an invalid-uuid error; Format is the identity |
| `Constant.NewEnumAnnotationDesc` | libs/constant/descriptors.go:74-92 | Parse succeeds iff the text is in the allowed list and then returns it, otherwise the zero value "" and an invalid-enum error; Format is the identity |
| `Constant.UUIDRoundTrip` | libs/constant/descriptors.go:60-72 | every accepted UUID survives Format then Parse |
| `Constant.EnumRoundTrip` | libs/constant/descriptors.go:74-92 | every allowed enum value survives Format then Parse |
| `Constant.UUIDSamples` | libs/metadata/descriptors_test.go:43-53 | the test's sample UUID is accepted and "bad-uuid" is not |
| `TypedAccess.Get` | libs/metadata/descriptors.go:10-24 | present iff the metadata is non-nil and has the key; absent gives (zero, false, nil); unparsable gives (zero, true, the parse error); parsable gives (parsed value, true, nil) |
| `TypedAccess.Set` | libs/metadata/descriptors.go:27-32 | nil metadata is left alone; otherwise the new value is the old one with d.Format(v) stored under d.Key |
| `TypedAccess.SetThenGet` | libs/metadata/descriptors.go:10-32 | for any descriptor whose Parse inverts Format at v, Set then Get yields (v, true, nil) and labels are kept |
| `TypedAccess.BoolSetThenGet` | libs/metadata/descriptors_test.go:19-23 | bool descriptor: Set then Get returns (b, true, nil) |
| `TypedAccess.UUIDSetThenGet` | libs/metadata/descriptors_test.go:46-49 | UUID descriptor: Set then Get returns the UUID with no error, for every canonical UUID |
| `TypedAccess.StringSetThenGet` | libs/constant/descriptors.go:17-24 | string descriptor: Set then Get returns the string |
| `TypedAccess.EnumSetThenGet` | libs/constant/descriptors.go:74-92 | enum descriptor: Set then Get returns every allowed value |
| `TypedAccess.AbsentVersusInvalid` | libs/metadata/descriptors_test.go:10-54 | a key never written is not present; a bool holding "not-bool" or a UUID holding "bad-uuid" is present with an error |
| `TypedAccess.BoolDescriptorMatchesGetBoolAnnotation` | libs/metadata/types.go:144-157 | the bool descriptor read through Get and GetBoolAnnotation agree on value, presence and error-ness |
| `CacheModel.Wire` | libs/metadata/types.go:10-13 | the JSON round trip keeps every label and annotation lookup, turns empty maps into nil and keeps non-empty maps |
| `CacheModel.PlayerDelete` | libs/metadata/watchers.go:61-75 | the key leaves the cache, other cache entries stay; the old non-empty name leaves the index whatever key it mapped to; other index entries stay; nothing is added |
| `CacheModel.PlayerPut` | libs/metadata/watchers.go:89-108 | the cache gets the new value at the key and keeps the rest; a non-empty new name maps to the key; a changed old name is dropped; other entries stay |
| `CacheModel.PlayerEvents` | libs/metadata/watchers.go:52-111 | one event per applied put or delete and none for a nil record or an undecodable payload, with the key, the kind, the new value (none on delete) and an old value only for a cached player with non-nil annotations |
| `CacheModel.PlayerPutIdempotent` | libs/metadata/watchers.go:100-108 | applying the same put twice leaves cache and index exactly as after one application |
| `CacheModel.PutIndexesName` | libs/metadata/watchers.go:104-106 | after a put with a non-empty name, lookup by that name returns the new value |
| `CacheModel.PutRenames` | libs/metadata/watchers.go:101-106 | after renaming A to B, A is not indexed and B resolves to the new value |
| `CacheModel.DeleteUnindexes` | libs/metadata/watchers.go:61-75 | after a delete, the key is not cached and the deleted player's name resolves to nothing |
| `CacheModel.ByNameCarriesName` | libs/metadata/players.go:15-25 | under a sound index, lookup by a name returns only a player carrying that non-empty name |
| `CacheModel.PutKeepsIndexSound` | libs/metadata/watchers.go:89-108 | a put preserves index soundness |
| `CacheModel.DeleteKeepsIndexSound` | libs/metadata/watchers.go:61-75 | a delete preserves index soundness |
| `CacheModel.FeedKeepsIndexSound` | libs/metadata/watchers.go:50-116 | applying any sequence of feed records in order preserves index soundness |
| `CacheModel.FeedEventCount` | libs/metadata/watchers.go:50-116 | the events published over a feed prefix are exactly as many as its applied puts and deletes |
| `CacheModel.DeleteDropsSharedName` | libs/metadata/watchers.go:71-73 | with two players named A and the index on the first, deleting the second leaves A unresolvable while the first is still cached |
| `CacheModel.WarmPlayersCache` | libs/metadata/cache.go:18-35 | warm-up caches every listed key that decodes, under that key, with its decoded value; all other cache entries are unchanged |
| `CacheModel.WarmPlayersIndex` | libs/metadata/cache.go:27-34 | a name is indexed to the last listed key that decodes with it (later keys overwrite earlier ones); other names keep their entries; no entry is ever removed |
| `CacheModel.WarmPlayersSound` | libs/metadata/cache.go:18-35 | from a sound state whose cached players are exactly what the bucket holds under their keys, warm-up over any listing, repeated keys included, keeps the index sound and that agreement |
| `CacheModel.WarmStepIsPut` | libs/metadata/cache.go:27-34 | on a key not yet cached, or cached with the value the bucket holds, the warm-up step equals the watch loop's put |
| `CacheModel.PurgeIsSkipped` | libs/metadata/watchers.go:61-87 | a purge record, which takes the put path with an undecodable payload, changes neither cache nor index and publishes no event |
| `CacheModel.WarmUpFromEmptyIsSound` | libs/metadata/client.go:98-121 | warm-up of a fresh client over any listing leaves a sound index |
| `CacheModel.ServerStep` | libs/metadata/watchers.go:150-187 | a server delete removes the name, a decoded put assigns it, anything else changes nothing |
| `CacheModel.ServerEvents` | libs/metadata/watchers.go:150-187 | one event per applied put or delete, whose old value is the previous cached entry if there was one |
| `CacheModel.WarmServersCache` | libs/metadata/cache.go:37-54 | server warm-up stores every listed key that decodes, by name, and leaves the other entries unchanged |
| `CacheModel.SelectByLabel` | libs/metadata/queries.go:3-13 | the result holds exactly the cache entries with HasLabel(key, value), under the same keys with the cached values |
| `CacheModel.SelectByLabels` | libs/metadata/queries.go:15-25 | the result holds exactly the cache entries with HasLabels(required), under the same keys with the cached values |
| `CacheModel.SelectAll` | libs/metadata/queries.go:15-25 | the empty requirement selects the whole cache |
| `CacheModel.SelectSingle` | libs/metadata/queries.go:3-25 | the single-label query equals the multi-label query on one pair |
| `CacheModel.QueryScenario` | libs/metadata/metadata_test.go:142-149 | one player with tier=gold and one server with region=eu: each single-label query returns exactly that entry |
| `MetadataClient.Starting` | libs/metadata/players.go:31-34 | an update starts from the cached value, or from an empty one with nil maps when the key is absent |
| `MetadataClient.Detached` | libs/metadata/players.go:36-46 | the copy has non-nil label and annotation maps holding exactly the source's entries |
| `MetadataClient.CopyMap` | libs/metadata/servers.go:12-20 | the entry-by-entry copy loop yields a map equal to its source |
| `MetadataClient.CopyMetadata` | libs/metadata/players.go:36-46 | the copy loops build exactly the detached copy |
| `MetadataClient.CheckLabels` | libs/metadata/types.go:73-84 | the early-exit loop returns exactly HasLabels |
| `MetadataClient.FilterByLabel` | libs/metadata/queries.go:3-13 | the filter loop returns exactly SelectByLabel of the cache |
| `MetadataClient.FilterByLabels` | libs/metadata/queries.go:15-25 | the filter loop returns exactly SelectByLabels of the cache |
| `MetadataClient.Client.constructor` | libs/metadata/client.go:76-86 | a new client has empty caches, an empty index and no events |
| `MetadataClient.Client.NewClient` | libs/metadata/client.go:73-148 | a connect or bucket failure returns that error and no client; a listing error other than no-keys-found aborts with a wrapped error, players before servers; when all four steps succeed a fresh client and no error come back, whose caches are the warm-up folds and whose name index is sound |
| `MetadataClient.Client.WarmUpPlayers` | libs/metadata/cache.go:13-35 | aborts on a listing error other than no-keys-found with the cache untouched; otherwise the player state becomes the warm-up fold over the listed keys |
| `MetadataClient.Client.WarmUpServers` | libs/metadata/cache.go:37-54 | aborts on a listing error other than no-keys-found; otherwise the server cache becomes the warm-up fold |
| `MetadataClient.Client.WarmUpCaches` | libs/metadata/cache.go:12-56 | a player listing error returns before any server is loaded; a server listing error returns with players already loaded |
| `MetadataClient.Client.ApplyPlayerEntry` | libs/metadata/watchers.go:52-111 | one record changes the player state by PlayerStep and appends exactly PlayerEvents to the log; servers and buckets unchanged |
| `MetadataClient.Client.ApplyServerEntry` | libs/metadata/watchers.go:145-187 | one record changes the server cache by ServerStep and appends exactly ServerEvents; players and buckets unchanged |
| `MetadataClient.Client.WatchPlayers` | libs/metadata/watchers.go:50-116 | the receive loop applies the delivered records in order, logs their events in order and keeps a sound index sound |
| `MetadataClient.Client.WatchServers` | libs/metadata/watchers.go:143-192 | the server receive loop applies the delivered records in order and logs their events |
| `MetadataClient.Client.GetPlayer` | libs/metadata/players.go:8-13 | present iff the key is cached, and then the cached value |
| `MetadataClient.Client.GetPlayerByName` | libs/metadata/players.go:15-25 | present iff the name is indexed and its key is cached, and then that cached value; under a sound index it carries the name |
| `MetadataClient.Client.GetServer` | libs/metadata/servers.go:5-10 | present iff the name is cached, and then the cached value |
| `MetadataClient.Client.GetAllServers` | libs/metadata/servers.go:12-20 | returns a map with exactly the server cache's entries |
| `MetadataClient.Client.UpdatePlayer` | libs/metadata/players.go:27-56 | the bucket gets the encoded mutated copy under the key unless the put fails, whose error is returned; cache, index and events are unchanged |
| `MetadataClient.Client.UpdatePlayerByName` | libs/metadata/players.go:58-66 | an unindexed name is a not-found error and writes nothing; otherwise it is UpdatePlayer on the indexed key, cached or not |
| `MetadataClient.Client.UpdateServer` | libs/metadata/servers.go:22-51 | the servers bucket gets the encoded mutated copy unless the put fails, whose error is returned; the server cache is unchanged |
| `MetadataClient.Client.GetPlayersByLabel` | libs/metadata/queries.go:3-13 | returns SelectByLabel of the player cache and changes nothing |
| `MetadataClient.Client.GetPlayersByLabels` | libs/metadata/queries.go:15-25 | returns SelectByLabels of the player cache and changes nothing |
| `MetadataClient.Client.GetServersByLabel` | libs/metadata/queries.go:27-37 | returns SelectByLabel of the server cache and changes nothing |
| `MetadataClient.Client.GetServersByLabels` | libs/metadata/queries.go:39-49 | returns SelectByLabels of the server cache and changes nothing |
| `Scenarios.EchoReadsBack` | libs/metadata/players.go:48-55 | the record an update writes reads back every label and annotation of the mutated copy |
| `Scenarios.IdentityUpdateKeepsEntries` | libs/metadata/players.go:31-46 | an update that changes nothing writes back exactly the entries it started from |
| `Scenarios.UpdateThenEcho` | libs/metadata/metadata_test.go:115-131 | after UpdatePlayer sets tier=gold and the name "Hero" and the echo is applied, the player is cached with the label and found by "Hero" |
| `Scenarios.SeededServer` | libs/metadata/watchers.go:170-187 | a put for "srv-1" with region=eu caches it with that label and publishes one Put event with no old value |
| `Scenarios.RenameThenDelete` | libs/metadata/watchers.go:61-108 | after a rename from A to B only B resolves; after the delete neither does and the key is gone |

## Left out

- Connecting to NATS and provisioning the buckets (`libs/metadata/client.go:150-208`, `libs/metadata/connection.go`): network I/O. Their outcomes are the parameters `connectFault` and `initKVFault` of `NewClient`.
- Goroutines, the read/write locks, the wait group, context cancellation, the reconnect back-off and `watcher.Stop`/`Close`: concurrency and timing. Only the sequential per-record steps and a finite prefix of each feed are modelled.
- The watcher status channel and its non-blocking sends: a best-effort channel between goroutines.
- The event bus and subscription/unsubscription: a foreign library. Publishing is an append to the ghost logs `playerEvents`/`serverEvents`. The model does not capture that events go out after the cache update and under no lock, because it has no subscribers.
- `encoding/json`: decoding is an `Option<Metadata>` input (a feed payload or a bucket entry). Encoding is `Wire`, which models `omitempty`. Two effects of JSON are not modelled: `json.Marshal` replaces invalid UTF-8, and a payload can carry extra fields. Marshalling two string maps cannot fail, so the marshal error path of the updates is not modelled.
- The string-list and structured annotations (`libs/metadata/types.go:86-133`) depend on the JSON codec.
- The time descriptor (`libs/constant/descriptors.go:49-56`) relies on the layout semantics of `time.Parse` and `Format`.
- The enum descriptor's domain type `T ~string` is modelled as `string`. Its zero value is "".
- `GetLabel` and `GetAnnotation` return `Option<string>`. Go's `("", false)` is `None`.
- The reflection registry, configuration parsing, the example `main`, the dashboard, the permission service and the fake-data tool are outside the core.
- Aliasing of `*Metadata`: the caches hold values. A caller of `GetPlayer` that mutates the returned pointer would change the cache in Go; the model cannot express this. The mutation closure of the updates is a pure function `Metadata -> Metadata` on the owned copy.
- `Client.UpdatePlayer`, `Client.UpdateServer`: a failed `Put` is assumed to leave the bucket unchanged; a put that fails after the store applied it is not modelled.
