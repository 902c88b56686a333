/** The values the client's caches hold and the pure transitions the watch
    loops and the warm-up apply to them. The `Client` class runs these
    transitions step by step; the lemmas here state what they guarantee. */
module CacheModel {
  import opened Wrappers
  import opened Constant
  import opened MetadataTypes

  /** The annotation the player name index is keyed on. */
  const NameIndexKey: AnnotationKey := PlayerName

  /** A player's indexed name: "" when the annotation map is nil or lacks the key. */
  function NameOf(p: Metadata): string {
    ValueAt(p.annotations, NameIndexKey)
  }

  /** A bucket of the backing store, by key, as a reader decodes it: `None`
      is a stored payload that is not valid JSON for a Metadata. */
  type Bucket = map<string, Option<Metadata>>

  predicate Decodes(kv: Bucket, key: string) {
    key in kv && kv[key].Some?
  }

  function NonEmpty(m: Option<map<string, string>>): Option<map<string, string>> {
    if m.Some? && |m.value| > 0 then m else None
  }

  /** What a reader decodes after the writer marshals `m`: the JSON field
      tags say `omitempty`, so an empty map is not written and decodes as nil. */
  function Wire(m: Metadata): (w: Metadata)
    ensures forall k :: w.GetLabel(k) == m.GetLabel(k)
    ensures forall k :: w.GetAnnotation(k) == m.GetAnnotation(k)
    ensures w.labels.Some? ==> |w.labels.value| > 0
    ensures w.annotations.Some? ==> |w.annotations.value| > 0
    ensures m.labels.Some? && |m.labels.value| > 0 ==> w.labels == m.labels
  {
    Metadata(NonEmpty(m.labels), NonEmpty(m.annotations))
  }

  // ---------------------------------------------------------------------------
  // Change events and watch entries

  datatype ChangeType = Put | Delete

  /** `MetadataChangeEvent`: the key, the previous and the new value (nil as `None`) and the kind. */
  datatype ChangeEvent = ChangeEvent(key: string, oldValue: Option<Metadata>, newValue: Option<Metadata>, kind: ChangeType)

  /** One record delivered by a bucket's change feed: a nil record, a delete,
      or a put whose payload decoded (`Some`) or did not (`None`). */
  datatype WatchEntry = NilEntry | DeleteEntry(key: string) | PutEntry(key: string, payload: Option<Metadata>)

  // ---------------------------------------------------------------------------
  // Players: the cache and the name index

  /** `playersCache` and `playersNameToUUID`. */
  datatype PlayerState = PlayerState(cache: map<string, Metadata>, index: map<string, string>) {

    /** Lookup by name: both hops, name to key and key to player, must hit. */
    function ByName(name: string): Option<Metadata> {
      if name in index && index[name] in cache then Some(cache[index[name]]) else None
    }
  }

  const NoPlayers := PlayerState(map[], map[])

  /** The name the cached player under `key` is indexed by, "" when there is none. */
  function CachedName(s: PlayerState, key: string): string {
    if key in s.cache then NameOf(s.cache[key]) else ""
  }

  /** The old value a player event carries: only a cached player whose
      annotation map is non-nil. */
  function PlayerOldValue(s: PlayerState, key: string): Option<Metadata> {
    if key in s.cache && s.cache[key].annotations.Some? then Some(s.cache[key]) else None
  }

  /** Every index entry names a cached player that carries that non-empty name. */
  predicate IndexSound(s: PlayerState) {
    forall n :: n in s.index ==> n != "" && s.index[n] in s.cache && NameOf(s.cache[s.index[n]]) == n
  }

  /** A delete record: drop the old name's index entry, whatever key it maps
      to, and the cache entry. */
  function PlayerDelete(s: PlayerState, key: string): (r: PlayerState)
    ensures r.cache.Keys == s.cache.Keys - {key}
    ensures forall k :: k in r.cache ==> r.cache[k] == s.cache[k]
    ensures CachedName(s, key) != "" ==> CachedName(s, key) !in r.index
    ensures r.index.Keys <= s.index.Keys
    ensures forall n :: n in s.index && n != CachedName(s, key) ==> n in r.index && r.index[n] == s.index[n]
  {
    var oldName := CachedName(s, key);
    var index := if oldName != "" then s.index - {oldName} else s.index;
    PlayerState(s.cache - {key}, index)
  }

  /** A put record whose payload decoded to `p`: drop the old name's index
      entry, whatever key it maps to, map the new non-empty name to `key`,
      and replace the cache entry. */
  function PlayerPut(s: PlayerState, key: string, p: Metadata): (r: PlayerState)
    ensures r.cache.Keys == s.cache.Keys + {key}
    ensures r.cache[key] == p
    ensures forall k :: k in r.cache && k != key ==> r.cache[k] == s.cache[k]
    ensures NameOf(p) != "" ==> NameOf(p) in r.index && r.index[NameOf(p)] == key
    ensures CachedName(s, key) != "" && CachedName(s, key) != NameOf(p) ==> CachedName(s, key) !in r.index
    ensures forall n :: n in r.index ==> n in s.index || n == NameOf(p)
    ensures forall n :: n in s.index && n != CachedName(s, key) && n != NameOf(p) ==> n in r.index && r.index[n] == s.index[n]
  {
    var oldName := CachedName(s, key);
    var newName := NameOf(p);
    var index1 := if oldName != "" then s.index - {oldName} else s.index;
    var index2 := if newName != "" then index1[newName := key] else index1;
    PlayerState(s.cache[key := p], index2)
  }

  /** The effect of one feed record on the player state. */
  function PlayerStep(s: PlayerState, e: WatchEntry): PlayerState {
    match e
    case NilEntry => s
    case DeleteEntry(key) => PlayerDelete(s, key)
    case PutEntry(key, payload) => if payload.Some? then PlayerPut(s, key, payload.value) else s
  }

  /** The events one feed record publishes: exactly one for an applied put
      or delete, none for a nil record or an undecodable payload. */
  function PlayerEvents(s: PlayerState, e: WatchEntry): (evs: seq<ChangeEvent>)
    ensures |evs| <= 1
    ensures |evs| == 1 <==> e.DeleteEntry? || (e.PutEntry? && e.payload.Some?)
    ensures |evs| == 1 ==> evs[0].key == e.key && evs[0].oldValue == PlayerOldValue(s, e.key)
    ensures |evs| == 1 && e.DeleteEntry? ==> evs[0].newValue == None && evs[0].kind == Delete
    ensures |evs| == 1 && e.PutEntry? ==> evs[0].newValue == e.payload && evs[0].kind == Put
  {
    match e
    case NilEntry => []
    case DeleteEntry(key) => [ChangeEvent(key, PlayerOldValue(s, key), None, Delete)]
    case PutEntry(key, payload) =>
      if payload.Some? then [ChangeEvent(key, PlayerOldValue(s, key), payload, Put)] else []
  }

  /** The player state after a prefix of the feed has been applied in order. */
  function PlayerFeed(s: PlayerState, feed: seq<WatchEntry>): PlayerState
    decreases |feed|
  {
    if feed == [] then s else PlayerStep(PlayerFeed(s, feed[..|feed| - 1]), feed[|feed| - 1])
  }

  /** The events published while that prefix was applied. */
  function PlayerFeedEvents(s: PlayerState, feed: seq<WatchEntry>): seq<ChangeEvent>
    decreases |feed|
  {
    if feed == [] then []
    else
      var prefix := feed[..|feed| - 1];
      PlayerFeedEvents(s, prefix) + PlayerEvents(PlayerFeed(s, prefix), feed[|feed| - 1])
  }

  // --- player lemmas ---

  /** Applying the same put twice leaves cache and index as one application does. */
  lemma {:induction false} PlayerPutIdempotent(s: PlayerState, key: string, p: Metadata)
    ensures PlayerPut(PlayerPut(s, key, p), key, p) == PlayerPut(s, key, p)
  {
    var once := PlayerPut(s, key, p);
    assert CachedName(once, key) == NameOf(p);
    var twice := PlayerPut(once, key, p);
    assert twice.cache == once.cache;
    if NameOf(p) != "" {
      assert (once.index - {NameOf(p)})[NameOf(p) := key] == once.index;
    }
    assert twice.index == once.index;
  }

  /** A put indexes a non-empty name: lookup by that name finds the new value. */
  lemma PutIndexesName(s: PlayerState, key: string, p: Metadata)
    requires NameOf(p) != ""
    ensures PlayerPut(s, key, p).ByName(NameOf(p)) == Some(p)
  {
  }

  /** Renaming A to B: afterwards A resolves to nothing and B to the new value. */
  lemma {:induction false} PutRenames(s: PlayerState, key: string, p: Metadata, a: string)
    requires key in s.cache && NameOf(s.cache[key]) == a && a != ""
    requires NameOf(p) != "" && NameOf(p) != a
    ensures a !in PlayerPut(s, key, p).index
    ensures PlayerPut(s, key, p).ByName(a) == None
    ensures PlayerPut(s, key, p).ByName(NameOf(p)) == Some(p)
  {
    assert CachedName(s, key) == a;
  }

  /** Deleting a player makes its key and its indexed name resolve to nothing. */
  lemma {:induction false} DeleteUnindexes(s: PlayerState, key: string)
    requires key in s.cache && NameOf(s.cache[key]) != ""
    ensures key !in PlayerDelete(s, key).cache
    ensures PlayerDelete(s, key).ByName(NameOf(s.cache[key])) == None
  {
    assert CachedName(s, key) == NameOf(s.cache[key]);
  }

  /** Under a sound index, lookup by name only returns a player carrying that name. */
  lemma ByNameCarriesName(s: PlayerState, name: string)
    requires IndexSound(s)
    requires s.ByName(name).Some?
    ensures name != "" && NameOf(s.ByName(name).value) == name
  {
  }

  lemma {:induction false} PutKeepsIndexSound(s: PlayerState, key: string, p: Metadata)
    requires IndexSound(s)
    ensures IndexSound(PlayerPut(s, key, p))
  {
    var r := PlayerPut(s, key, p);
    forall n | n in r.index
      ensures n != "" && r.index[n] in r.cache && NameOf(r.cache[r.index[n]]) == n
    {
      if n != NameOf(p) {
        assert n in s.index && n != CachedName(s, key);
        assert r.index[n] == s.index[n];
      }
    }
  }

  lemma {:induction false} DeleteKeepsIndexSound(s: PlayerState, key: string)
    requires IndexSound(s)
    ensures IndexSound(PlayerDelete(s, key))
  {
    var r := PlayerDelete(s, key);
    forall n | n in r.index
      ensures n != "" && r.index[n] in r.cache && NameOf(r.cache[r.index[n]]) == n
    {
      assert n in s.index && n != CachedName(s, key);
    }
  }

  /** Every prefix of a feed keeps the index sound. */
  lemma {:induction false} FeedKeepsIndexSound(s: PlayerState, feed: seq<WatchEntry>)
    requires IndexSound(s)
    ensures IndexSound(PlayerFeed(s, feed))
    decreases |feed|
  {
    if feed != [] {
      var prefix := feed[..|feed| - 1];
      FeedKeepsIndexSound(s, prefix);
      var t := PlayerFeed(s, prefix);
      match feed[|feed| - 1]
      case NilEntry =>
      case DeleteEntry(key) => DeleteKeepsIndexSound(t, key);
      case PutEntry(key, payload) =>
        if payload.Some? {
          PutKeepsIndexSound(t, key, payload.value);
        }
    }
  }

  /** Each applied record publishes exactly one event, the others none. */
  lemma {:induction false} FeedEventCount(s: PlayerState, feed: seq<WatchEntry>)
    ensures |PlayerFeedEvents(s, feed)| == |set i | 0 <= i < |feed| && Applied(feed[i])|
    decreases |feed|
  {
    if feed != [] {
      var n := |feed| - 1;
      var prefix := feed[..n];
      FeedEventCount(s, prefix);
      var before := set i | 0 <= i < n && Applied(prefix[i]);
      var now := set i | 0 <= i < |feed| && Applied(feed[i]);
      assert before == set i | 0 <= i < n && Applied(feed[i]);
      if Applied(feed[n]) {
        assert now == before + {n};
      } else {
        assert now == before;
      }
    }
  }

  /** A record that changes the cache and publishes an event. */
  predicate Applied(e: WatchEntry) {
    e.DeleteEntry? || (e.PutEntry? && e.payload.Some?)
  }

  /** The delete quirk: a delete drops the old name's index entry even when
      it maps to another key, so a second player still carrying that name
      can no longer be found by it. */
  lemma DeleteDropsSharedName()
    ensures var a := Metadata.Empty.WithAnnotation(NameIndexKey, "A");
            var s := PlayerState(map["p1" := a, "p2" := a], map["A" := "p1"]);
            IndexSound(s) && PlayerDelete(s, "p2").ByName("A") == None && "p1" in PlayerDelete(s, "p2").cache
  {
    var a := Metadata.Empty.WithAnnotation(NameIndexKey, "A");
    assert NameOf(a) == "A";
  }

  // ---------------------------------------------------------------------------
  // Players: warm-up

  /** One listed key at warm-up: skipped when it does not decode; otherwise
      cached, and its non-empty name indexed to it. Nothing is removed. */
  function WarmPlayerKey(s: PlayerState, kv: Bucket, key: string): PlayerState {
    if Decodes(kv, key) then
      var p := kv[key].value;
      PlayerState(s.cache[key := p], if NameOf(p) != "" then s.index[NameOf(p) := key] else s.index)
    else s
  }

  /** Warm-up over the listed keys, in listing order. */
  function WarmPlayers(s: PlayerState, kv: Bucket, keys: seq<string>): PlayerState
    decreases |keys|
  {
    if keys == [] then s else WarmPlayerKey(WarmPlayers(s, kv, keys[..|keys| - 1]), kv, keys[|keys| - 1])
  }

  /** The last listed key that decodes to a player named `name`. */
  function LastNamed(kv: Bucket, keys: seq<string>, name: string): Option<string>
    decreases |keys|
  {
    if keys == [] then None
    else
      var key := keys[|keys| - 1];
      if name != "" && Decodes(kv, key) && NameOf(kv[key].value) == name then Some(key)
      else LastNamed(kv, keys[..|keys| - 1], name)
  }

  function DecodedKeys(kv: Bucket, keys: seq<string>): set<string> {
    set k | k in keys && Decodes(kv, k)
  }

  /** Warm-up caches every listed key that decodes, under that key, and
      leaves every other cache entry as it was. */
  lemma {:induction false} WarmPlayersCache(s: PlayerState, kv: Bucket, keys: seq<string>)
    ensures WarmPlayers(s, kv, keys).cache.Keys == s.cache.Keys + DecodedKeys(kv, keys)
    ensures forall k :: k in DecodedKeys(kv, keys) ==> WarmPlayers(s, kv, keys).cache[k] == kv[k].value
    ensures forall k :: k in s.cache && k !in DecodedKeys(kv, keys) ==> WarmPlayers(s, kv, keys).cache[k] == s.cache[k]
    decreases |keys|
  {
    if keys != [] {
      var prefix := keys[..|keys| - 1];
      WarmPlayersCache(s, kv, prefix);
      assert keys == prefix + [keys[|keys| - 1]];
      assert DecodedKeys(kv, keys) == DecodedKeys(kv, prefix) + (if Decodes(kv, keys[|keys| - 1]) then {keys[|keys| - 1]} else {});
    }
  }

  /** A name is indexed to the last listed key that carries it, later keys
      overwriting earlier ones; names no listed key carries keep their entries.
      So warm-up never removes an index entry. */
  lemma {:induction false} WarmPlayersIndex(s: PlayerState, kv: Bucket, keys: seq<string>, name: string)
    ensures LastNamed(kv, keys, name).Some? ==>
              name in WarmPlayers(s, kv, keys).index && WarmPlayers(s, kv, keys).index[name] == LastNamed(kv, keys, name).value
    ensures LastNamed(kv, keys, name).None? ==>
              (name in WarmPlayers(s, kv, keys).index <==> name in s.index) &&
              (name in s.index ==> WarmPlayers(s, kv, keys).index[name] == s.index[name])
    ensures s.index.Keys <= WarmPlayers(s, kv, keys).index.Keys
    decreases |keys|
  {
    if keys != [] {
      var prefix := keys[..|keys| - 1];
      WarmPlayersIndex(s, kv, prefix, name);
      forall n | n in s.index ensures n in WarmPlayers(s, kv, keys).index {
        WarmPlayersIndex(s, kv, prefix, n);
      }
    }
  }

  /** Every cached player is the decoded value its bucket holds under its key. */
  predicate AgreesWith(s: PlayerState, kv: Bucket) {
    forall k :: k in s.cache ==> Decodes(kv, k) && s.cache[k] == kv[k].value
  }

  /** From a sound state whose cache agrees with the bucket, a warm-up over
      any listing, repeated keys included, keeps the index sound and the
      cache in agreement with the bucket. */
  lemma {:induction false} WarmPlayersSound(s: PlayerState, kv: Bucket, keys: seq<string>)
    requires IndexSound(s) && AgreesWith(s, kv)
    ensures IndexSound(WarmPlayers(s, kv, keys)) && AgreesWith(WarmPlayers(s, kv, keys), kv)
    decreases |keys|
  {
    if keys != [] {
      var prefix := keys[..|keys| - 1];
      WarmPlayersSound(s, kv, prefix);
      var t := WarmPlayers(s, kv, prefix);
      var key := keys[|keys| - 1];
      if Decodes(kv, key) {
        WarmStepIsPut(t, kv, key);
        PutKeepsIndexSound(t, key, kv[key].value);
      }
    }
  }

  /** The warm-up step is the watch loop's put whenever the key is not cached
      yet or is cached with the very value the bucket holds. Otherwise the
      two differ: warm-up keeps the index entry of a previously cached
      player's name, while the put drops it. */
  lemma WarmStepIsPut(s: PlayerState, kv: Bucket, key: string)
    requires Decodes(kv, key)
    requires key in s.cache ==> s.cache[key] == kv[key].value
    ensures WarmPlayerKey(s, kv, key) == PlayerPut(s, key, kv[key].value)
  {
    var p := kv[key].value;
    if key in s.cache && NameOf(p) != "" {
      assert (s.index - {NameOf(p)})[NameOf(p) := key] == s.index[NameOf(p) := key];
    }
  }

  /** Warm-up of a fresh client leaves a sound index, whatever the listing. */
  lemma WarmUpFromEmptyIsSound(kv: Bucket, keys: seq<string>)
    ensures IndexSound(WarmPlayers(NoPlayers, kv, keys))
  {
    WarmPlayersSound(NoPlayers, kv, keys);
  }

  /** A purge record carries an empty payload and takes the put path, where
      the payload fails to decode: the record is skipped, so the purged player
      stays cached and indexed and no event is published. */
  lemma PurgeIsSkipped(s: PlayerState, key: string)
    ensures PlayerStep(s, PutEntry(key, None)) == s
    ensures PlayerEvents(s, PutEntry(key, None)) == []
  {
  }

  // ---------------------------------------------------------------------------
  // Servers: a cache by name, no index

  function ServerOldValue(cache: map<string, Metadata>, key: string): Option<Metadata> {
    if key in cache then Some(cache[key]) else None
  }

  function ServerStep(cache: map<string, Metadata>, e: WatchEntry): (r: map<string, Metadata>)
    ensures e.DeleteEntry? ==> r == cache - {e.key}
    ensures e.PutEntry? && e.payload.Some? ==> r == cache[e.key := e.payload.value]
    ensures !Applied(e) ==> r == cache
  {
    match e
    case NilEntry => cache
    case DeleteEntry(key) => cache - {key}
    case PutEntry(key, payload) => if payload.Some? then cache[key := payload.value] else cache
  }

  function ServerEvents(cache: map<string, Metadata>, e: WatchEntry): (evs: seq<ChangeEvent>)
    ensures |evs| == 1 <==> Applied(e)
    ensures |evs| <= 1
    ensures |evs| == 1 ==> evs[0].key == e.key && evs[0].oldValue == ServerOldValue(cache, e.key)
    ensures |evs| == 1 ==> evs[0].newValue == (if e.PutEntry? then e.payload else None)
    ensures |evs| == 1 ==> evs[0].kind == (if e.PutEntry? then Put else Delete)
  {
    match e
    case NilEntry => []
    case DeleteEntry(key) => [ChangeEvent(key, ServerOldValue(cache, key), None, Delete)]
    case PutEntry(key, payload) =>
      if payload.Some? then [ChangeEvent(key, ServerOldValue(cache, key), payload, Put)] else []
  }

  function ServerFeed(cache: map<string, Metadata>, feed: seq<WatchEntry>): map<string, Metadata>
    decreases |feed|
  {
    if feed == [] then cache else ServerStep(ServerFeed(cache, feed[..|feed| - 1]), feed[|feed| - 1])
  }

  function ServerFeedEvents(cache: map<string, Metadata>, feed: seq<WatchEntry>): seq<ChangeEvent>
    decreases |feed|
  {
    if feed == [] then []
    else
      var prefix := feed[..|feed| - 1];
      ServerFeedEvents(cache, prefix) + ServerEvents(ServerFeed(cache, prefix), feed[|feed| - 1])
  }

  function WarmServerKey(cache: map<string, Metadata>, kv: Bucket, key: string): map<string, Metadata> {
    if Decodes(kv, key) then cache[key := kv[key].value] else cache
  }

  function WarmServers(cache: map<string, Metadata>, kv: Bucket, keys: seq<string>): map<string, Metadata>
    decreases |keys|
  {
    if keys == [] then cache else WarmServerKey(WarmServers(cache, kv, keys[..|keys| - 1]), kv, keys[|keys| - 1])
  }

  /** Server warm-up stores every listed key that decodes, by name, and
      leaves every other entry as it was. */
  lemma {:induction false} WarmServersCache(cache: map<string, Metadata>, kv: Bucket, keys: seq<string>)
    ensures WarmServers(cache, kv, keys).Keys == cache.Keys + DecodedKeys(kv, keys)
    ensures forall k :: k in DecodedKeys(kv, keys) ==> WarmServers(cache, kv, keys)[k] == kv[k].value
    ensures forall k :: k in cache && k !in DecodedKeys(kv, keys) ==> WarmServers(cache, kv, keys)[k] == cache[k]
    decreases |keys|
  {
    if keys != [] {
      var prefix := keys[..|keys| - 1];
      WarmServersCache(cache, kv, prefix);
      assert keys == prefix + [keys[|keys| - 1]];
      assert DecodedKeys(kv, keys) == DecodedKeys(kv, prefix) + (if Decodes(kv, keys[|keys| - 1]) then {keys[|keys| - 1]} else {});
    }
  }

  // ---------------------------------------------------------------------------
  // Label queries

  /** The entries whose value has the label `key` = `value`, under their own keys. */
  function SelectByLabel(cache: map<string, Metadata>, key: string, value: string): (r: map<string, Metadata>)
    ensures r.Keys <= cache.Keys
    ensures forall k :: k in r ==> r[k] == cache[k]
    ensures forall k :: k in cache ==> (k in r <==> cache[k].HasLabel(key, value))
  {
    map k | k in cache && cache[k].HasLabel(key, value) :: cache[k]
  }

  /** The entries whose value has every required label, under their own keys. */
  function SelectByLabels(cache: map<string, Metadata>, required: map<string, string>): (r: map<string, Metadata>)
    ensures r.Keys <= cache.Keys
    ensures forall k :: k in r ==> r[k] == cache[k]
    ensures forall k :: k in cache ==> (k in r <==> cache[k].HasLabels(required))
  {
    map k | k in cache && cache[k].HasLabels(required) :: cache[k]
  }

  /** The empty requirement selects the whole cache. */
  lemma {:induction false} SelectAll(cache: map<string, Metadata>)
    ensures SelectByLabels(cache, map[]) == cache
  {
    var r := SelectByLabels(cache, map[]);
    var none: map<string, string> := map[];
    assert |none| == 0;
    forall k | k in cache ensures k in r {
      assert cache[k].HasLabels(none);
    }
  }

  /** The single-label query is the multi-label query on one pair. */
  lemma {:induction false} SelectSingle(cache: map<string, Metadata>, key: string, value: string)
    ensures SelectByLabel(cache, key, value) == SelectByLabels(cache, map[key := value])
  {
    forall k | k in cache ensures cache[k].HasLabel(key, value) <==> cache[k].HasLabels(map[key := value]) {
      HasLabelsSingleton(cache[k], key, value);
    }
  }

  /** One player labelled tier=gold and one server labelled region=eu: each
      single-label query returns exactly that one entry. */
  lemma {:induction false} QueryScenario(player: string, server: string)
    ensures var p := Metadata.Empty.WithLabel("tier", "gold");
            SelectByLabel(map[player := p], "tier", "gold") == map[player := p]
    ensures var v := Metadata.Empty.WithLabel("region", "eu");
            SelectByLabel(map[server := v], "region", "eu") == map[server := v]
  {
    var p := Metadata.Empty.WithLabel("tier", "gold");
    assert p.HasLabel("tier", "gold");
    var v := Metadata.Empty.WithLabel("region", "eu");
    assert v.HasLabel("region", "eu");
  }
}
