/** What holds across several client operations: an update followed by the
    watch loop's echo of that write, and the name-index scenarios. */
module Scenarios {
  import opened Wrappers
  import opened Constant
  import opened MetadataTypes
  import opened CacheModel
  import opened MetadataClient

  /** The record the watch loop later delivers for a key an update wrote. */
  function Echo(kv: Bucket, key: string): WatchEntry
    requires key in kv
  {
    PutEntry(key, kv[key])
  }

  /** The echo of a written record reads back every label and annotation the
      mutated copy had; only empty maps come back nil. */
  lemma {:induction false} EchoReadsBack(cache: map<string, Metadata>, key: string, mutate: Metadata -> Metadata, k: string)
    ensures UpdateRecord(cache, key, mutate).GetLabel(k) == mutate(Detached(Starting(cache, key))).GetLabel(k)
    ensures UpdateRecord(cache, key, mutate).GetAnnotation(k) == mutate(Detached(Starting(cache, key))).GetAnnotation(k)
  {
    var w := Wire(mutate(Detached(Starting(cache, key))));
    assert w.GetLabel(k) == mutate(Detached(Starting(cache, key))).GetLabel(k);
  }

  /** An update that changes nothing writes back the entries it started from. */
  lemma {:induction false} IdentityUpdateKeepsEntries(cache: map<string, Metadata>, key: string, k: string)
    ensures UpdateRecord(cache, key, m => m).GetLabel(k) == Starting(cache, key).GetLabel(k)
    ensures UpdateRecord(cache, key, m => m).GetAnnotation(k) == Starting(cache, key).GetAnnotation(k)
  {
    EchoReadsBack(cache, key, m => m, k);
  }

  /** The mutation of the client test: label tier=gold and name "Hero". */
  function MakeHero(m: Metadata): Metadata {
    m.WithLabel("tier", "gold").WithAnnotation(PlayerName, "Hero")
  }

  /** The client test's flow: UpdatePlayer with MakeHero succeeds; once the
      watch loop applies the echo, the player is cached with tier=gold and
      found by the name "Hero". Between the two steps the cache is as it
      was before the update. */
  method UpdateThenEcho(c: Client, uuid: string)
    modifies c
    ensures c.GetPlayer(uuid).Some? && c.GetPlayer(uuid).value.HasLabel("tier", "gold")
    ensures c.GetPlayerByName("Hero").Some?
    ensures c.GetPlayerByName("Hero") == c.GetPlayer(uuid)
  {
    ghost var before := c.PlayerView();
    var err := c.UpdatePlayer(uuid, MakeHero, None);
    assert err == None;
    assert c.PlayerView() == before;
    var written := c.playersKV[uuid];
    assert written == Some(UpdateRecord(before.cache, uuid, MakeHero));
    c.ApplyPlayerEntry(PutEntry(uuid, written));
    EchoReadsBack(before.cache, uuid, MakeHero, "tier");
    EchoReadsBack(before.cache, uuid, MakeHero, NameIndexKey);
    assert NameOf(written.value) == "Hero";
    PutIndexesName(before, uuid, written.value);
  }

  /** The seeded-server scenario: a put for "srv-1" with labels region=eu
      on a cache without it caches the value and publishes one Put event
      with no old value. */
  lemma SeededServer(cache: map<string, Metadata>)
    requires "srv-1" !in cache
    ensures var v := Metadata(Some(map["region" := "eu"]), None);
            var e := PutEntry("srv-1", Some(v));
            && "srv-1" in ServerStep(cache, e)
            && ServerStep(cache, e)["srv-1"].HasLabel("region", "eu")
            && ServerEvents(cache, e) == [ChangeEvent("srv-1", None, Some(v), Put)]
  {
  }

  /** Renaming a player from A to B and then deleting it: after the rename
      A resolves to nothing and B to the player; after the delete neither
      does, and the key is gone. */
  lemma {:induction false} RenameThenDelete(s: PlayerState, key: string, q: Metadata)
    requires key in s.cache && NameOf(s.cache[key]) == "A"
    requires NameOf(q) == "B"
    ensures PlayerPut(s, key, q).ByName("A") == None
    ensures PlayerPut(s, key, q).ByName("B") == Some(q)
    ensures PlayerDelete(PlayerPut(s, key, q), key).ByName("A") == None
    ensures PlayerDelete(PlayerPut(s, key, q), key).ByName("B") == None
    ensures key !in PlayerDelete(PlayerPut(s, key, q), key).cache
  {
    PutRenames(s, key, q, "A");
    var t := PlayerPut(s, key, q);
    DeleteUnindexes(t, key);
    assert "A" !in PlayerDelete(t, key).index;
  }
}
