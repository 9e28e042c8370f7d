/**
 * The per-key usage aggregates the v1 handlers bump with
 * `update({ where: { id }, data: { … increment … } })`.
 */
module KeyUsage {
  import opened Wrappers
  import opened Schema
  import opened Stores
  import opened ApiKeys

  /** `update where id`: every row with that id is rewritten (ids are unique, so at most one). */
  function UpdateKeyById(keys: map<string, ApiKey>, id: string, f: ApiKey -> ApiKey): (r: map<string, ApiKey>)
    ensures r.Keys == keys.Keys
    ensures forall h :: h in keys ==> r[h] == if keys[h].id == id then f(keys[h]) else keys[h]
  {
    map h | h in keys :: if keys[h].id == id then f(keys[h]) else keys[h]
  }

  /** One analysed request: the total, successful, daily and monthly counters each rise by one. */
  function RecordAnalyzeSuccess(k: ApiKey, now: int): (r: ApiKey)
    ensures r.totalRequests == k.totalRequests + 1 && r.successfulRequests == k.successfulRequests + 1
    ensures r.dailyUsage == k.dailyUsage + 1 && r.monthlyUsage == k.monthlyUsage + 1
    ensures r.failedRequests == k.failedRequests && r.lastUsedAt == Some(now)
    ensures Identity(r) == Identity(k)
  {
    k.(totalRequests := k.totalRequests + 1, successfulRequests := k.successfulRequests + 1,
       dailyUsage := k.dailyUsage + 1, monthlyUsage := k.monthlyUsage + 1, lastUsedAt := Some(now))
  }

  /** A batch of n items of which `successful` succeeded. */
  function RecordBatch(k: ApiKey, n: int, successful: int, now: int): (r: ApiKey)
    ensures r.totalRequests == k.totalRequests + n && r.successfulRequests == k.successfulRequests + successful
    ensures r.failedRequests == k.failedRequests + (n - successful)
    ensures r.dailyUsage == k.dailyUsage + n && r.monthlyUsage == k.monthlyUsage + n && r.lastUsedAt == Some(now)
    ensures Identity(r) == Identity(k)
  {
    k.(totalRequests := k.totalRequests + n, successfulRequests := k.successfulRequests + successful,
       failedRequests := k.failedRequests + (n - successful),
       dailyUsage := k.dailyUsage + n, monthlyUsage := k.monthlyUsage + n, lastUsedAt := Some(now))
  }

  /** Under unique ids, updating by id is a point update of the one row with that id. */
  lemma {:induction false} UpdateByIdIsPointUpdate(keys: map<string, ApiKey>, h: string, f: ApiKey -> ApiKey)
    requires KeyTableValid(keys) && h in keys
    ensures UpdateKeyById(keys, keys[h].id, f) == keys[h := f(keys[h])]
  {
    var r := UpdateKeyById(keys, keys[h].id, f);
    forall h' | h' in keys
      ensures r[h'] == keys[h := f(keys[h])][h']
    {
      if h' != h {
        assert keys[h'].id != keys[h].id;
      }
    }
  }

  /**
   * An aggregate update keeps the table indexed and unique and keeps the key
   * cache coherent, so a cached record never disagrees with the table on
   * anything but the counters.
   */
  lemma {:induction false} AggregateUpdateKeepsInvariants(keys: map<string, ApiKey>, cache: map<string, Cached<ApiKey>>,
                                                          id: string, f: ApiKey -> ApiKey)
    requires KeyTableValid(keys) && CacheCoherent(keys, cache)
    requires forall k: ApiKey :: Identity(f(k)) == Identity(k)
    ensures KeyTableValid(UpdateKeyById(keys, id, f))
    ensures CacheCoherent(UpdateKeyById(keys, id, f), cache)
  {
    UpdateKeepsTableValid(keys, id, f);
    UpdateKeepsCacheCoherent(keys, cache, id, f);
  }

  lemma UpdateKeepsTableValid(keys: map<string, ApiKey>, id: string, f: ApiKey -> ApiKey)
    requires KeyTableValid(keys)
    requires forall k: ApiKey :: Identity(f(k)) == Identity(k)
    ensures KeyTableValid(UpdateKeyById(keys, id, f))
  {
    var r := UpdateKeyById(keys, id, f);
    forall h | h in r
      ensures r[h].hashedKey == h
    {
      assert Identity(r[h]).hashedKey == r[h].hashedKey;
      assert Identity(keys[h]).hashedKey == keys[h].hashedKey;
    }
    forall h1, h2 | h1 in r && h2 in r && r[h1].id == r[h2].id
      ensures h1 == h2
    {
      assert Identity(r[h1]).id == r[h1].id && Identity(keys[h1]).id == keys[h1].id;
      assert Identity(r[h2]).id == r[h2].id && Identity(keys[h2]).id == keys[h2].id;
    }
  }

  lemma UpdateKeepsCacheCoherent(keys: map<string, ApiKey>, cache: map<string, Cached<ApiKey>>, id: string, f: ApiKey -> ApiKey)
    requires CacheCoherent(keys, cache)
    requires forall k: ApiKey :: Identity(f(k)) == Identity(k)
    ensures CacheCoherent(UpdateKeyById(keys, id, f), cache)
  {
    var r := UpdateKeyById(keys, id, f);
    forall h | CacheKey(h) in cache
      ensures h in r && Identity(cache[CacheKey(h)].value) == Identity(r[h])
    {
    }
  }
}
