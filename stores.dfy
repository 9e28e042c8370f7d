/**
 * The two shared client handles: the relational database and the Redis
 * cache.  Every operation elsewhere takes them as parameters and names, in its
 * `modifies` clause, the tables or key spaces it may write.
 *
 * The Redis key space is split by prefix: `apikey:<hash>` holds cached key
 * records, `ratelimit:<id>:<window>:<bucket>` holds counters and
 * `analysis:<md5>` holds cached analyses.  No code reads a key under one
 * prefix that it wrote under another, so one map per prefix loses nothing.
 */
module Stores {
  import opened Wrappers
  import opened Schema

  datatype Cached<T> = Cached(value: T, ttlSeconds: int)

  /** A Redis integer; `ttlSeconds` is None until `EXPIRE` sets it. */
  datatype Counter = Counter(count: int, ttlSeconds: Option<int>)

  class Db {
    /** The api_keys table, indexed by its unique `hashedKey` column. */
    var apiKeys: map<string, ApiKey>
    var usageLogs: seq<UsageLog>
    var users: seq<User>
    var analyses: seq<AnalysisRow>
    var webhookEndpoints: seq<WebhookEndpoint>
    var webhookDeliveries: seq<WebhookDelivery>
  }

  class Redis {
    var keyCache: map<string, Cached<ApiKey>>
    var counters: map<string, Counter>
    var analysisCache: map<string, Cached<AnalysisResult>>
  }

  /** The api_keys table is indexed by hash, and ids are unique. */
  ghost predicate KeyTableValid(keys: map<string, ApiKey>)
  {
    && (forall h :: h in keys ==> keys[h].hashedKey == h)
    && (forall h1, h2 :: h1 in keys && h2 in keys && keys[h1].id == keys[h2].id ==> h1 == h2)
  }

  predicate HasKeyId(keys: map<string, ApiKey>, id: string)
  {
    exists h :: h in keys && keys[h].id == id
  }
}
