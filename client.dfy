/** The metadata client minus its I/O: the player cache with its name index,
    the server cache, the two backing buckets the updates write to, and the
    change events the watch loops publish (a ghost log in place of the bus). */
module MetadataClient {
  import opened Wrappers
  import opened Constant
  import opened MetadataTypes
  import opened CacheModel

  /** The errors the client returns. `cause` is the underlying error's text. */
  datatype ClientError =
    | ConnectFailed(cause: string)
    | InitKVFailed(cause: string)
    | ListPlayersFailed(cause: string)
    | ListServersFailed(cause: string)
    | StoreFailed(cause: string)
    | PlayerNotFound(name: string)

  /** The error a bucket's `Keys()` may return besides the listing. */
  datatype ListError = NoKeysFound | ListFailed(cause: string)

  /** The result of `Keys()`: the keys and the error, if any. */
  datatype Listing = Listing(keys: seq<string>, err: Option<ListError>)

  /** Only an error other than "no keys found" aborts a warm-up. */
  predicate ListAborts(l: Listing) {
    l.err.Some? && l.err.value.ListFailed?
  }

  /** The value an update starts from: the cached one, or an empty one. */
  function Starting(cache: map<string, Metadata>, key: string): (m: Metadata)
    ensures key in cache ==> m == cache[key]
    ensures key !in cache ==> m.labels.None? && m.annotations.None?
  {
    if key in cache then cache[key] else Metadata.Empty
  }

  /** The owned copy an update hands to the mutation: two freshly made maps
      holding exactly the source's entries, so both are non-nil. */
  function Detached(m: Metadata): (c: Metadata)
    ensures c.labels.Some? && c.annotations.Some?
    ensures forall k :: c.GetLabel(k) == m.GetLabel(k)
    ensures forall k :: c.GetAnnotation(k) == m.GetAnnotation(k)
  {
    Metadata(Some(m.labels.GetOr(map[])), Some(m.annotations.GetOr(map[])))
  }

  /** What an update of `key` with `mutate` stores in the bucket. */
  function UpdateRecord(cache: map<string, Metadata>, key: string, mutate: Metadata -> Metadata): Metadata {
    Wire(mutate(Detached(Starting(cache, key))))
  }

  /** Copies a map entry by entry into a fresh one. */
  method CopyMap<V>(src: map<string, V>) returns (dst: map<string, V>)
    ensures dst == src
  {
    dst := map[];
    var todo := src.Keys;
    while todo != {}
      invariant todo <= src.Keys
      invariant dst.Keys == src.Keys - todo
      invariant forall k :: k in dst ==> dst[k] == src[k]
      decreases todo
    {
      var k :| k in todo;
      dst := dst[k := src[k]];
      todo := todo - {k};
    }
  }

  /** The copy step of UpdatePlayer and UpdateServer. */
  method CopyMetadata(m: Metadata) returns (c: Metadata)
    ensures c == Detached(m)
  {
    var labels: map<string, string> := map[];
    if m.labels.Some? {
      labels := CopyMap(m.labels.value);
    }
    var annotations: map<string, string> := map[];
    if m.annotations.Some? {
      annotations := CopyMap(m.annotations.value);
    }
    c := Metadata(Some(labels), Some(annotations));
  }

  /** HasLabels as the source runs it: stop at the first mismatch. */
  method CheckLabels(m: Metadata, required: map<string, string>) returns (ok: bool)
    ensures ok == m.HasLabels(required)
  {
    if m.labels.None? {
      return |required| == 0;
    }
    var todo := required.Keys;
    while todo != {}
      invariant todo <= required.Keys
      invariant forall k :: k in required && k !in todo ==> m.HasLabel(k, required[k])
      decreases todo
    {
      var k :| k in todo;
      if ValueAt(m.labels, k) != required[k] {
        return false;
      }
      todo := todo - {k};
    }
    return true;
  }

  /** The loop of GetPlayersByLabel and GetServersByLabel. */
  method FilterByLabel(cache: map<string, Metadata>, key: string, value: string) returns (result: map<string, Metadata>)
    ensures result == SelectByLabel(cache, key, value)
  {
    result := map[];
    var todo := cache.Keys;
    while todo != {}
      invariant todo <= cache.Keys
      invariant forall k :: k in result <==> k in cache && k !in todo && cache[k].HasLabel(key, value)
      invariant forall k :: k in result ==> result[k] == cache[k]
      decreases todo
    {
      var k :| k in todo;
      if cache[k].HasLabel(key, value) {
        result := result[k := cache[k]];
      }
      todo := todo - {k};
    }
  }

  /** The loop of GetPlayersByLabels and GetServersByLabels. */
  method FilterByLabels(cache: map<string, Metadata>, required: map<string, string>) returns (result: map<string, Metadata>)
    ensures result == SelectByLabels(cache, required)
  {
    result := map[];
    var todo := cache.Keys;
    while todo != {}
      invariant todo <= cache.Keys
      invariant forall k :: k in result <==> k in cache && k !in todo && cache[k].HasLabels(required)
      invariant forall k :: k in result ==> result[k] == cache[k]
      decreases todo
    {
      var k :| k in todo;
      var matches := CheckLabels(cache[k], required);
      if matches {
        result := result[k := cache[k]];
      }
      todo := todo - {k};
    }
  }

  class Client {
    var playersCache: map<string, Metadata>
    var playersNameToUUID: map<string, string>
    var serversCache: map<string, Metadata>
    /** The contents of the players and the servers bucket. */
    var playersKV: Bucket
    var serversKV: Bucket
    /** What was published on the player and on the server topic, in order. */
    ghost var playerEvents: seq<ChangeEvent>
    ghost var serverEvents: seq<ChangeEvent>

    function PlayerView(): PlayerState
      reads this
    {
      PlayerState(playersCache, playersNameToUUID)
    }

    /** A client connected to two buckets, its caches still empty. */
    constructor (playersKV: Bucket, serversKV: Bucket)
      ensures PlayerView() == NoPlayers && serversCache == map[]
      ensures this.playersKV == playersKV && this.serversKV == serversKV
      ensures playerEvents == [] && serverEvents == []
    {
      playersCache := map[];
      playersNameToUUID := map[];
      serversCache := map[];
      this.playersKV := playersKV;
      this.serversKV := serversKV;
      playerEvents := [];
      serverEvents := [];
    }

    /** NewClient: a connect or bucket failure returns an error and no client;
        otherwise the caches are warmed up, players first, and a listing
        error aborts construction. */
    static method NewClient(
      connectFault: Option<string>, initKVFault: Option<string>,
      playersKV: Bucket, serversKV: Bucket,
      players: Listing, servers: Listing)
      returns (c: Client?, err: Option<ClientError>)
      ensures c == null <==> err.Some?
      ensures connectFault.Some? ==> err == Some(ConnectFailed(connectFault.value))
      ensures connectFault.None? && initKVFault.Some? ==> err == Some(InitKVFailed(initKVFault.value))
      ensures connectFault.None? && initKVFault.None? && ListAborts(players) ==>
                err == Some(ListPlayersFailed(players.err.value.cause))
      ensures connectFault.None? && initKVFault.None? && !ListAborts(players) && ListAborts(servers) ==>
                err == Some(ListServersFailed(servers.err.value.cause))
      ensures connectFault.None? && initKVFault.None? && !ListAborts(players) && !ListAborts(servers) ==>
                c != null && err.None?
      ensures c != null ==> IndexSound(c.PlayerView())
      ensures c != null ==>
                && fresh(c)
                && c.PlayerView() == WarmPlayers(NoPlayers, playersKV, players.keys)
                && c.serversCache == WarmServers(map[], serversKV, servers.keys)
                && c.playersKV == playersKV && c.serversKV == serversKV
                && c.playerEvents == [] && c.serverEvents == []
    {
      if connectFault.Some? {
        return null, Some(ConnectFailed(connectFault.value));
      }
      if initKVFault.Some? {
        return null, Some(InitKVFailed(initKVFault.value));
      }
      var client := new Client(playersKV, serversKV);
      var listErr := client.WarmUpPlayers(players);
      if listErr.Some? {
        return null, Some(ListPlayersFailed(listErr.value.cause));
      }
      listErr := client.WarmUpServers(servers);
      if listErr.Some? {
        return null, Some(ListServersFailed(listErr.value.cause));
      }
      WarmUpFromEmptyIsSound(playersKV, players.keys);
      return client, None;
    }

    /** The player half of warm-up: every listed key that can be read and
        decoded is cached and its non-empty name indexed; others are skipped. */
    method WarmUpPlayers(listing: Listing) returns (err: Option<ListError>)
      modifies this
      ensures ListAborts(listing) ==> err == listing.err && PlayerView() == old(PlayerView())
      ensures !ListAborts(listing) ==> err == None && PlayerView() == WarmPlayers(old(PlayerView()), playersKV, listing.keys)
      ensures serversCache == old(serversCache) && playersKV == old(playersKV) && serversKV == old(serversKV)
      ensures playerEvents == old(playerEvents) && serverEvents == old(serverEvents)
    {
      if ListAborts(listing) {
        return listing.err;
      }
      var keys := listing.keys;
      var i := 0;
      while i < |keys|
        invariant 0 <= i <= |keys|
        invariant PlayerView() == WarmPlayers(old(PlayerView()), playersKV, keys[..i])
        invariant serversCache == old(serversCache) && playersKV == old(playersKV) && serversKV == old(serversKV)
        invariant playerEvents == old(playerEvents) && serverEvents == old(serverEvents)
      {
        var uuid := keys[i];
        assert keys[..i + 1][..i] == keys[..i];
        if uuid in playersKV && playersKV[uuid].Some? {
          var player := playersKV[uuid].value;
          playersCache := playersCache[uuid := player];
          if player.annotations.Some? && NameIndexKey in player.annotations.value {
            var name := player.annotations.value[NameIndexKey];
            if name != "" {
              playersNameToUUID := playersNameToUUID[name := uuid];
            }
          }
        }
        i := i + 1;
      }
      assert keys[..i] == keys;
      return None;
    }

    /** The server half of warm-up: every listed key that can be read and
        decoded is stored by name. */
    method WarmUpServers(listing: Listing) returns (err: Option<ListError>)
      modifies this
      ensures ListAborts(listing) ==> err == listing.err && serversCache == old(serversCache)
      ensures !ListAborts(listing) ==> err == None && serversCache == WarmServers(old(serversCache), serversKV, listing.keys)
      ensures PlayerView() == old(PlayerView()) && playersKV == old(playersKV) && serversKV == old(serversKV)
      ensures playerEvents == old(playerEvents) && serverEvents == old(serverEvents)
    {
      if ListAborts(listing) {
        return listing.err;
      }
      var keys := listing.keys;
      var i := 0;
      while i < |keys|
        invariant 0 <= i <= |keys|
        invariant serversCache == WarmServers(old(serversCache), serversKV, keys[..i])
        invariant PlayerView() == old(PlayerView()) && playersKV == old(playersKV) && serversKV == old(serversKV)
        invariant playerEvents == old(playerEvents) && serverEvents == old(serverEvents)
      {
        var name := keys[i];
        assert keys[..i + 1][..i] == keys[..i];
        if name in serversKV && serversKV[name].Some? {
          serversCache := serversCache[name := serversKV[name].value];
        }
        i := i + 1;
      }
      assert keys[..i] == keys;
      return None;
    }

    /** warmUpCaches: players, then servers; a player listing error returns
        before any server is loaded. */
    method WarmUpCaches(players: Listing, servers: Listing) returns (err: Option<ListError>)
      modifies this
      ensures ListAborts(players) ==>
                err == players.err && PlayerView() == old(PlayerView()) && serversCache == old(serversCache)
      ensures !ListAborts(players) ==> PlayerView() == WarmPlayers(old(PlayerView()), playersKV, players.keys)
      ensures !ListAborts(players) && ListAborts(servers) ==> err == servers.err && serversCache == old(serversCache)
      ensures !ListAborts(players) && !ListAborts(servers) ==>
                err == None && serversCache == WarmServers(old(serversCache), serversKV, servers.keys)
      ensures playersKV == old(playersKV) && serversKV == old(serversKV)
      ensures playerEvents == old(playerEvents) && serverEvents == old(serverEvents)
    {
      err := WarmUpPlayers(players);
      if err.Some? {
        return;
      }
      err := WarmUpServers(servers);
    }

    /** The body of the player watch loop for one delivered record. */
    method ApplyPlayerEntry(e: WatchEntry)
      modifies this
      ensures PlayerView() == PlayerStep(old(PlayerView()), e)
      ensures playerEvents == old(playerEvents) + PlayerEvents(old(PlayerView()), e)
      ensures serversCache == old(serversCache) && playersKV == old(playersKV) && serversKV == old(serversKV)
      ensures serverEvents == old(serverEvents)
    {
      match e
      case NilEntry =>
      case DeleteEntry(uuid) =>
        var oldName := "";
        var oldValue: Option<Metadata> := None;
        if uuid in playersCache && playersCache[uuid].annotations.Some? {
          oldName := ValueAt(playersCache[uuid].annotations, NameIndexKey);
          oldValue := Some(playersCache[uuid]);
        }
        if oldName != "" {
          playersNameToUUID := playersNameToUUID - {oldName};
        }
        playersCache := playersCache - {uuid};
        playerEvents := playerEvents + [ChangeEvent(uuid, oldValue, None, Delete)];
      case PutEntry(uuid, payload) =>
        if payload.None? {
          // the payload did not decode: logged and skipped
          return;
        }
        var player := payload.value;
        var oldName, newName := "", "";
        var oldValue: Option<Metadata> := None;
        if uuid in playersCache && playersCache[uuid].annotations.Some? {
          oldName := ValueAt(playersCache[uuid].annotations, NameIndexKey);
          oldValue := Some(playersCache[uuid]);
        }
        if player.annotations.Some? {
          newName := ValueAt(player.annotations, NameIndexKey);
        }
        if oldName != "" {
          playersNameToUUID := playersNameToUUID - {oldName};
        }
        if newName != "" {
          playersNameToUUID := playersNameToUUID[newName := uuid];
        }
        playersCache := playersCache[uuid := player];
        playerEvents := playerEvents + [ChangeEvent(uuid, oldValue, Some(player), Put)];
    }

    /** The body of the server watch loop for one delivered record. */
    method ApplyServerEntry(e: WatchEntry)
      modifies this
      ensures serversCache == ServerStep(old(serversCache), e)
      ensures serverEvents == old(serverEvents) + ServerEvents(old(serversCache), e)
      ensures PlayerView() == old(PlayerView()) && playersKV == old(playersKV) && serversKV == old(serversKV)
      ensures playerEvents == old(playerEvents)
    {
      match e
      case NilEntry =>
      case DeleteEntry(name) =>
        var oldValue: Option<Metadata> := None;
        if name in serversCache {
          oldValue := Some(serversCache[name]);
        }
        serversCache := serversCache - {name};
        serverEvents := serverEvents + [ChangeEvent(name, oldValue, None, Delete)];
      case PutEntry(name, payload) =>
        if payload.None? {
          return;
        }
        var server := payload.value;
        var oldValue: Option<Metadata> := None;
        if name in serversCache {
          oldValue := Some(serversCache[name]);
        }
        serversCache := serversCache[name := server];
        serverEvents := serverEvents + [ChangeEvent(name, oldValue, Some(server), Put)];
    }

    /** The player receive loop over the records delivered so far, in order.
        A sound name index stays sound. */
    method WatchPlayers(feed: seq<WatchEntry>)
      modifies this
      ensures PlayerView() == PlayerFeed(old(PlayerView()), feed)
      ensures playerEvents == old(playerEvents) + PlayerFeedEvents(old(PlayerView()), feed)
      ensures IndexSound(old(PlayerView())) ==> IndexSound(PlayerView())
      ensures serversCache == old(serversCache) && playersKV == old(playersKV) && serversKV == old(serversKV)
      ensures serverEvents == old(serverEvents)
    {
      var i := 0;
      while i < |feed|
        invariant 0 <= i <= |feed|
        invariant PlayerView() == PlayerFeed(old(PlayerView()), feed[..i])
        invariant playerEvents == old(playerEvents) + PlayerFeedEvents(old(PlayerView()), feed[..i])
        invariant serversCache == old(serversCache) && playersKV == old(playersKV) && serversKV == old(serversKV)
        invariant serverEvents == old(serverEvents)
      {
        assert feed[..i + 1][..i] == feed[..i];
        ApplyPlayerEntry(feed[i]);
        i := i + 1;
      }
      assert feed[..i] == feed;
      if IndexSound(old(PlayerView())) {
        FeedKeepsIndexSound(old(PlayerView()), feed);
      }
    }

    /** The server receive loop over the records delivered so far, in order. */
    method WatchServers(feed: seq<WatchEntry>)
      modifies this
      ensures serversCache == ServerFeed(old(serversCache), feed)
      ensures serverEvents == old(serverEvents) + ServerFeedEvents(old(serversCache), feed)
      ensures PlayerView() == old(PlayerView()) && playersKV == old(playersKV) && serversKV == old(serversKV)
      ensures playerEvents == old(playerEvents)
    {
      var i := 0;
      while i < |feed|
        invariant 0 <= i <= |feed|
        invariant serversCache == ServerFeed(old(serversCache), feed[..i])
        invariant serverEvents == old(serverEvents) + ServerFeedEvents(old(serversCache), feed[..i])
        invariant PlayerView() == old(PlayerView()) && playersKV == old(playersKV) && serversKV == old(serversKV)
        invariant playerEvents == old(playerEvents)
      {
        assert feed[..i + 1][..i] == feed[..i];
        ApplyServerEntry(feed[i]);
        i := i + 1;
      }
      assert feed[..i] == feed;
    }

    // --- lookups ---

    function GetPlayer(uuid: string): (r: Option<Metadata>)
      reads this
      ensures r.Some? <==> uuid in playersCache
      ensures r.Some? ==> r.value == playersCache[uuid]
    {
      if uuid in playersCache then Some(playersCache[uuid]) else None
    }

    /** Present iff the name is indexed and its key is cached; under a sound
        index the player found carries that name. */
    function GetPlayerByName(name: string): (r: Option<Metadata>)
      reads this
      ensures r.Some? <==> name in playersNameToUUID && playersNameToUUID[name] in playersCache
      ensures r.Some? ==> r.value == playersCache[playersNameToUUID[name]]
      ensures r.Some? && IndexSound(PlayerView()) ==> NameOf(r.value) == name
    {
      PlayerView().ByName(name)
    }

    function GetServer(name: string): (r: Option<Metadata>)
      reads this
      ensures r.Some? <==> name in serversCache
      ensures r.Some? ==> r.value == serversCache[name]
    {
      if name in serversCache then Some(serversCache[name]) else None
    }

    method GetAllServers() returns (result: map<string, Metadata>)
      ensures result == serversCache
    {
      result := CopyMap(serversCache);
    }

    // --- copy-on-write updates ---

    /** UpdatePlayer: mutate an owned copy of the cached value (or of an
        empty one) and write it to the bucket under `uuid`. The cache and the
        index are not touched; the store's error is returned as is. */
    method UpdatePlayer(uuid: string, mutate: Metadata -> Metadata, putFault: Option<string>)
      returns (err: Option<ClientError>)
      modifies this
      ensures err == if putFault.Some? then Some(StoreFailed(putFault.value)) else None
      ensures putFault.Some? ==> playersKV == old(playersKV)
      ensures putFault.None? ==> playersKV == old(playersKV)[uuid := Some(UpdateRecord(old(playersCache), uuid, mutate))]
      ensures PlayerView() == old(PlayerView()) && serversCache == old(serversCache) && serversKV == old(serversKV)
      ensures playerEvents == old(playerEvents) && serverEvents == old(serverEvents)
    {
      var player := if uuid in playersCache then playersCache[uuid] else Metadata.Empty;
      var playerCopy := CopyMetadata(player);
      var updated := mutate(playerCopy);
      // marshalling two string maps cannot fail
      if putFault.Some? {
        return Some(StoreFailed(putFault.value));
      }
      playersKV := playersKV[uuid := Some(Wire(updated))];
      return None;
    }

    /** UpdatePlayerByName: an unindexed name is a not-found error and writes
        nothing; otherwise UpdatePlayer on the indexed key, cached or not. */
    method UpdatePlayerByName(name: string, mutate: Metadata -> Metadata, putFault: Option<string>)
      returns (err: Option<ClientError>)
      modifies this
      ensures name !in old(playersNameToUUID) ==> err == Some(PlayerNotFound(name)) && playersKV == old(playersKV)
      ensures name in old(playersNameToUUID) && putFault.Some? ==>
                err == Some(StoreFailed(putFault.value)) && playersKV == old(playersKV)
      ensures name in old(playersNameToUUID) && putFault.None? ==>
                var uuid := old(playersNameToUUID)[name];
                err == None && playersKV == old(playersKV)[uuid := Some(UpdateRecord(old(playersCache), uuid, mutate))]
      ensures PlayerView() == old(PlayerView()) && serversCache == old(serversCache) && serversKV == old(serversKV)
      ensures playerEvents == old(playerEvents) && serverEvents == old(serverEvents)
    {
      if name !in playersNameToUUID {
        return Some(PlayerNotFound(name));
      }
      err := UpdatePlayer(playersNameToUUID[name], mutate, putFault);
    }

    /** UpdateServer: the same copy-on-write write to the servers bucket. */
    method UpdateServer(name: string, mutate: Metadata -> Metadata, putFault: Option<string>)
      returns (err: Option<ClientError>)
      modifies this
      ensures err == if putFault.Some? then Some(StoreFailed(putFault.value)) else None
      ensures putFault.Some? ==> serversKV == old(serversKV)
      ensures putFault.None? ==> serversKV == old(serversKV)[name := Some(UpdateRecord(old(serversCache), name, mutate))]
      ensures PlayerView() == old(PlayerView()) && serversCache == old(serversCache) && playersKV == old(playersKV)
      ensures playerEvents == old(playerEvents) && serverEvents == old(serverEvents)
    {
      var server := if name in serversCache then serversCache[name] else Metadata.Empty;
      var serverCopy := CopyMetadata(server);
      var updated := mutate(serverCopy);
      if putFault.Some? {
        return Some(StoreFailed(putFault.value));
      }
      serversKV := serversKV[name := Some(Wire(updated))];
      return None;
    }

    // --- label queries (read-only) ---

    method GetPlayersByLabel(key: string, value: string) returns (result: map<string, Metadata>)
      ensures result == SelectByLabel(playersCache, key, value)
    {
      result := FilterByLabel(playersCache, key, value);
    }

    method GetPlayersByLabels(labels: map<string, string>) returns (result: map<string, Metadata>)
      ensures result == SelectByLabels(playersCache, labels)
    {
      result := FilterByLabels(playersCache, labels);
    }

    method GetServersByLabel(key: string, value: string) returns (result: map<string, Metadata>)
      ensures result == SelectByLabel(serversCache, key, value)
    {
      result := FilterByLabel(serversCache, key, value);
    }

    method GetServersByLabels(labels: map<string, string>) returns (result: map<string, Metadata>)
      ensures result == SelectByLabels(serversCache, labels)
    {
      result := FilterByLabels(serversCache, labels);
    }
  }
}
