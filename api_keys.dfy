/**
 * API key handling: the key format, key generation with its stored limits,
 * the tier limits table, cache-first validation and revocation.
 *
 * SHA-256 is a parameter `sha`, the 32 random bytes are a parameter, the
 * record id chosen by the database is a parameter, and the clock is `now`
 * in milliseconds.
 */
module ApiKeys {
  import opened Wrappers
  import opened Strings
  import opened Schema
  import opened Stores
  import Http

  datatype Limits = Limits(perMinute: int, perDay: int, perMonth: int)

  /** The fixed per-tier request ceilings. */
  function RateLimitsForTier(tier: ApiKeyTier): (l: Limits)
    ensures tier == Starter ==> l == Limits(10, 100, 3000)
    ensures tier == Growth ==> l == Limits(60, 1000, 30000)
    ensures tier == Enterprise ==> l == Limits(300, 10000, 300000)
  {
    match tier
    case Starter => Limits(10, 100, 3000)
    case Growth => Limits(60, 1000, 30000)
    case Enterprise => Limits(300, 10000, 300000)
  }

  /** Each higher tier allows strictly more in every window, and every ceiling is positive. */
  lemma TierLimitsOrdered(a: ApiKeyTier, b: ApiKeyTier)
    requires TierRank(a) < TierRank(b)
    ensures 0 < RateLimitsForTier(a).perMinute < RateLimitsForTier(b).perMinute
    ensures 0 < RateLimitsForTier(a).perDay < RateLimitsForTier(b).perDay
    ensures 0 < RateLimitsForTier(a).perMonth < RateLimitsForTier(b).perMonth
  {
  }

  function TierRank(t: ApiKeyTier): int
  {
    match t
    case Starter => 0
    case Growth => 1
    case Enterprise => 2
  }

  // ---------------------------------------------------------------------
  // Key format

  const KeyLength := 75
  const HexStart := 11

  function EnvSegment(e: Environment): string
  {
    if e == Production then "live" else "test"
  }

  /** `ca_<env>_sk_<64 lower-case hex digits>`, the accepted pattern, anchored at both ends. */
  predicate IsWellFormedKey(s: string)
  {
    && |s| == KeyLength
    && s[..3] == "ca_"
    && (s[3..7] == "live" || s[3..7] == "test")
    && s[7..HexStart] == "_sk_"
    && IsLowerHex(s[HexStart..])
  }

  function FullKey(e: Environment, random: seq<byte>): string
  {
    "ca_" + EnvSegment(e) + "_sk_" + HexEncode(random)
  }

  /** Every generated key passes the format check, and its env segment is `live` exactly for production keys. */
  lemma GeneratedKeyWellFormed(e: Environment, random: seq<byte>)
    requires |random| == 32
    ensures IsWellFormedKey(FullKey(e, random))
    ensures FullKey(e, random)[3..7] == "live" <==> e == Production
    ensures FullKey(e, random)[HexStart..] == HexEncode(random)
  {
    var k := FullKey(e, random);
    assert k[..3] == "ca_";
    assert k[3..7] == EnvSegment(e);
    assert k[7..HexStart] == "_sk_";
    assert k[HexStart..] == HexEncode(random);
  }

  function EnvOfKey(s: string): Environment
    requires IsWellFormedKey(s)
  {
    if s[3..7] == "live" then Production else Testing
  }

  /** Conversely, every string the format check accepts is the key generated from some 32 random bytes. */
  lemma WellFormedKeyIsGenerated(s: string)
    requires IsWellFormedKey(s)
    ensures |HexDecode(s[HexStart..])| == 32
    ensures s == FullKey(EnvOfKey(s), HexDecode(s[HexStart..]))
  {
    HexDecodeRoundTrip(s[HexStart..]);
    assert s == s[..3] + s[3..7] + s[7..HexStart] + s[HexStart..];
  }

  // ---------------------------------------------------------------------
  // Generation

  datatype GeneratedKey = GeneratedKey(id: string, key: string, prefix: string, lastFour: string)

  function LastFour(s: string): (r: string)
    ensures |s| >= 4 ==> |r| == 4 && r == s[|s| - 4..]
    ensures |s| < 4 ==> r == s
  {
    if |s| >= 4 then s[|s| - 4..] else s
  }

  /**
   * The row `generateApiKey` inserts.  Columns the insert leaves out take the
   * schema defaults: active, never revoked, no expiry, an empty allowlist and
   * zeroed aggregates.
   */
  function NewKeyRecord(id: string, userId: string, name: string, tier: ApiKeyTier, e: Environment,
                        fullKey: string, hashed: string, now: int): (k: ApiKey)
    ensures k.keyPrefix == Take(fullKey, 20) && k.lastFourChars == LastFour(fullKey)
    ensures k.hashedKey == hashed && k.userId == userId && k.tier == tier && k.environment == e
    ensures Limits(k.rateLimit, k.dailyLimit, k.monthlyLimit) == RateLimitsForTier(tier)
    ensures k.isActive && k.revokedAt.None? && k.expiresAt.None? && k.ipWhitelist == []
  {
    var limits := RateLimitsForTier(tier);
    ApiKey(id, userId, name, Take(fullKey, 20), hashed, LastFour(fullKey), e, tier,
           limits.perMinute, limits.perDay, limits.perMonth,
           true, None, None, None, [], 0, 0, 0, 0, 0, None, now)
  }

  /** A row whose hashedKey is already taken violates the unique index, and the insert throws. */
  datatype CreateError = DuplicateHashedKey

  method GenerateApiKey(db: Db, userId: string, name: string, tier: ApiKeyTier, e: Environment,
                        random: seq<byte>, sha: string -> string, newId: string, now: int)
    returns (r: Result<GeneratedKey, CreateError>)
    requires |random| == 32
    modifies db`apiKeys
    ensures var key := FullKey(e, random);
            if sha(key) in old(db.apiKeys) then
              r == Failure(DuplicateHashedKey) && db.apiKeys == old(db.apiKeys)
            else
              && r == Success(GeneratedKey(newId, key, Take(key, 20), LastFour(key)))
              && db.apiKeys == old(db.apiKeys)[sha(key) := NewKeyRecord(newId, userId, name, tier, e, key, sha(key), now)]
    ensures KeyTableValid(old(db.apiKeys)) && !HasKeyId(old(db.apiKeys), newId) ==> KeyTableValid(db.apiKeys)
  {
    var key := FullKey(e, random);
    var hashed := sha(key);
    if hashed in db.apiKeys {
      return Failure(DuplicateHashedKey);
    }
    var row := NewKeyRecord(newId, userId, name, tier, e, key, hashed, now);
    db.apiKeys := db.apiKeys[hashed := row];
    r := Success(GeneratedKey(row.id, key, row.keyPrefix, row.lastFourChars));
    if KeyTableValid(old(db.apiKeys)) && !HasKeyId(old(db.apiKeys), newId) {
      InsertPreservesTable(old(db.apiKeys), row);
    }
  }

  /**
   * Inserting a row under its own hash, with a hash and an id the table
   * does not have yet (the unique index and the generated id), keeps the
   * table indexed by hash with unique ids.
   */
  lemma InsertPreservesTable(keys: map<string, ApiKey>, k: ApiKey)
    requires KeyTableValid(keys) && k.hashedKey !in keys && !HasKeyId(keys, k.id)
    ensures KeyTableValid(keys[k.hashedKey := k])
  {
  }

  /** The returned prefix and last four characters are the first 20 and last 4 characters of the key. */
  lemma GeneratedKeyParts(e: Environment, random: seq<byte>)
    requires |random| == 32
    ensures var key := FullKey(e, random);
            |key| == KeyLength && Take(key, 20) == key[..20] && LastFour(key) == key[KeyLength - 4..]
    ensures Take(FullKey(e, random), 20)[..HexStart] == FullKey(e, random)[..HexStart]
  {
    GeneratedKeyWellFormed(e, random);
  }

  // ---------------------------------------------------------------------
  // Validation

  datatype Validation = Valid(key: ApiKey) | Invalid(message: string, statusCode: int)

  const CacheTtlSeconds := 300

  function CacheKey(hashed: string): string
  {
    "apikey:" + hashed
  }

  lemma CacheKeyInjective(h1: string, h2: string)
    requires CacheKey(h1) == CacheKey(h2)
    ensures h1 == h2
  {
    assert h1 == CacheKey(h1)[7..];
  }

  /**
   * Cache first; on a miss, the table row indexed by the hash.  While the
   * cache is coherent with the table, a record is found exactly when the
   * table has a row for the hash, and it is that row up to its aggregates.
   */
  function Lookup(keys: map<string, ApiKey>, cache: map<string, Cached<ApiKey>>, hashed: string): (r: Option<ApiKey>)
    ensures CacheKey(hashed) in cache ==> r == Some(cache[CacheKey(hashed)].value)
    ensures CacheCoherent(keys, cache) ==> (r.Some? <==> hashed in keys)
    ensures CacheCoherent(keys, cache) && r.Some? ==> Identity(r.value) == Identity(keys[hashed])
  {
    if CacheKey(hashed) in cache then Some(cache[CacheKey(hashed)].value)
    else if hashed in keys then Some(keys[hashed])
    else None
  }

  predicate IsRevoked(k: ApiKey)
  {
    !k.isActive || k.revokedAt.Some?
  }

  predicate IsExpired(k: ApiKey, now: int)
  {
    k.expiresAt.Some? && k.expiresAt.value < now
  }

  /** The decision for a found record: revoked is checked before expired. */
  function Decide(k: ApiKey, now: int): (v: Validation)
    ensures v.Valid? <==> !IsRevoked(k) && !IsExpired(k, now)
    ensures v.Valid? ==> v.key == k
    ensures IsRevoked(k) ==> v == Invalid("API key has been revoked", 401)
    ensures !IsRevoked(k) && IsExpired(k, now) ==> v == Invalid("API key has expired", 401)
  {
    if IsRevoked(k) then Invalid("API key has been revoked", 401)
    else if IsExpired(k, now) then Invalid("API key has expired", 401)
    else Valid(k)
  }

  datatype ValidationStep = ValidationStep(result: Validation, cache: map<string, Cached<ApiKey>>)

  /** The outcome of validating `token` against the table and cache, with the cache as it is afterwards. */
  function Validate(keys: map<string, ApiKey>, cache: map<string, Cached<ApiKey>>, token: string,
                    sha: string -> string, now: int): ValidationStep
  {
    if !IsWellFormedKey(token) then ValidationStep(Invalid("Invalid API key format", 401), cache)
    else
      var h := sha(token);
      if CacheKey(h) in cache then ValidationStep(Decide(cache[CacheKey(h)].value, now), cache)
      else if h !in keys then ValidationStep(Invalid("Invalid API key", 401), cache)
      else ValidationStep(Decide(keys[h], now), cache[CacheKey(h) := Cached(keys[h], CacheTtlSeconds)])
  }

  method ValidateApiKey(db: Db, redis: Redis, token: string, sha: string -> string, now: int)
    returns (v: Validation)
    modifies redis`keyCache
    ensures Validate(db.apiKeys, old(redis.keyCache), token, sha, now) == ValidationStep(v, redis.keyCache)
  {
    if !IsWellFormedKey(token) {
      return Invalid("Invalid API key format", 401);
    }
    var h := sha(token);
    var keyData: ApiKey;
    if CacheKey(h) in redis.keyCache {
      keyData := redis.keyCache[CacheKey(h)].value;
    } else {
      if h !in db.apiKeys {
        return Invalid("Invalid API key", 401);
      }
      keyData := db.apiKeys[h];
      redis.keyCache := redis.keyCache[CacheKey(h) := Cached(keyData, CacheTtlSeconds)];
    }
    if !keyData.isActive || keyData.revokedAt.Some? {
      return Invalid("API key has been revoked", 401);
    }
    if keyData.expiresAt.Some? && keyData.expiresAt.value < now {
      return Invalid("API key has expired", 401);
    }
    v := Valid(keyData);
  }

  /** A malformed token is rejected with 401 whatever the table, the cache and the hash function, and writes nothing. */
  lemma MalformedRejectedUntouched(keys: map<string, ApiKey>, cache: map<string, Cached<ApiKey>>,
                                   token: string, sha: string -> string, now: int)
    requires !IsWellFormedKey(token)
    ensures Validate(keys, cache, token, sha, now) == ValidationStep(Invalid("Invalid API key format", 401), cache)
  {
  }

  /** The only cache write is the fill on a miss followed by a table hit, with TTL 300; the table is never written. */
  lemma {:induction false} ValidateCacheWrites(keys: map<string, ApiKey>, cache: map<string, Cached<ApiKey>>,
                                               token: string, sha: string -> string, now: int)
    ensures var s := Validate(keys, cache, token, sha, now);
            if IsWellFormedKey(token) && CacheKey(sha(token)) !in cache && sha(token) in keys
            then s.cache == cache[CacheKey(sha(token)) := Cached(keys[sha(token)], 300)]
            else s.cache == cache
    ensures IsWellFormedKey(token) && CacheKey(sha(token)) !in cache && sha(token) !in keys ==>
            Validate(keys, cache, token, sha, now).result == Invalid("Invalid API key", 401)
  {
  }

  /** Admitted exactly when the token is well formed and the record found cache-first is neither revoked nor expired. */
  lemma ValidIff(keys: map<string, ApiKey>, cache: map<string, Cached<ApiKey>>,
                 token: string, sha: string -> string, now: int, k: ApiKey)
    ensures Validate(keys, cache, token, sha, now).result == Valid(k) <==>
            IsWellFormedKey(token) && Lookup(keys, cache, sha(token)) == Some(k) && !IsRevoked(k) && !IsExpired(k, now)
  {
  }

  // ---------------------------------------------------------------------
  // Cache coherence

  /** A record apart from its usage aggregates, which the v1 handlers bump without touching the cache. */
  function Identity(k: ApiKey): ApiKey
  {
    k.(totalRequests := 0, successfulRequests := 0, failedRequests := 0,
       dailyUsage := 0, monthlyUsage := 0, lastUsedAt := None)
  }

  /** Every cached record belongs to a row of the table and agrees with it apart from the aggregates. */
  ghost predicate CacheCoherent(keys: map<string, ApiKey>, cache: map<string, Cached<ApiKey>>)
  {
    && (forall ck :: ck in cache ==> exists h :: ck == CacheKey(h) && h in keys)
    && (forall h :: CacheKey(h) in cache ==> h in keys && Identity(cache[CacheKey(h)].value) == Identity(keys[h]))
  }

  lemma {:induction false} ValidatePreservesCoherence(keys: map<string, ApiKey>, cache: map<string, Cached<ApiKey>>,
                                                      token: string, sha: string -> string, now: int)
    requires CacheCoherent(keys, cache)
    ensures CacheCoherent(keys, Validate(keys, cache, token, sha, now).cache)
  {
    var c := Validate(keys, cache, token, sha, now).cache;
    if IsWellFormedKey(token) && CacheKey(sha(token)) !in cache && sha(token) in keys {
      var h0 := sha(token);
      forall ck | ck in c
        ensures exists h :: ck == CacheKey(h) && h in keys
      {
        if ck == CacheKey(h0) {
          assert ck == CacheKey(h0) && h0 in keys;
        }
      }
      forall h | CacheKey(h) in c
        ensures h in keys && Identity(c[CacheKey(h)].value) == Identity(keys[h])
      {
        if CacheKey(h) == CacheKey(h0) {
          CacheKeyInjective(h, h0);
        }
      }
    }
  }

  /** Under a coherent cache, a key revoked in the table is rejected as revoked, whichever copy is read. */
  lemma {:induction false} RevokedInTableNeverAdmitted(keys: map<string, ApiKey>, cache: map<string, Cached<ApiKey>>,
                                                       token: string, sha: string -> string, now: int)
    requires CacheCoherent(keys, cache)
    requires IsWellFormedKey(token) && sha(token) in keys && IsRevoked(keys[sha(token)])
    ensures Validate(keys, cache, token, sha, now).result == Invalid("API key has been revoked", 401)
  {
    var h := sha(token);
    if CacheKey(h) in cache {
      var k := cache[CacheKey(h)].value;
      assert Identity(k) == Identity(keys[h]);
      assert Identity(k).isActive == k.isActive && Identity(k).revokedAt == k.revokedAt;
    }
  }

  /** Bumping a row's aggregates (as the v1 handlers do) keeps the cache coherent. */
  lemma {:induction false} AggregateUpdatePreservesCoherence(keys: map<string, ApiKey>, cache: map<string, Cached<ApiKey>>,
                                                             h: string, k: ApiKey)
    requires CacheCoherent(keys, cache) && h in keys && Identity(k) == Identity(keys[h])
    ensures CacheCoherent(keys[h := k], cache)
  {
    var keys' := keys[h := k];
    forall ck | ck in cache
      ensures exists h' :: ck == CacheKey(h') && h' in keys'
    {
      var h' :| ck == CacheKey(h') && h' in keys;
      assert h' in keys';
    }
    forall h' | CacheKey(h') in cache
      ensures h' in keys' && Identity(cache[CacheKey(h')].value) == Identity(keys'[h'])
    {
      assert h' in keys && Identity(cache[CacheKey(h')].value) == Identity(keys[h']);
    }
  }

  /** A fresh insert keeps the cache coherent, and the new key is then admitted. */
  lemma {:induction false} GenerateThenValidate(keys: map<string, ApiKey>, cache: map<string, Cached<ApiKey>>,
                                                newId: string, userId: string, name: string, tier: ApiKeyTier,
                                                e: Environment, random: seq<byte>, sha: string -> string, createdAt: int, now: int)
    requires CacheCoherent(keys, cache) && |random| == 32
    requires sha(FullKey(e, random)) !in keys
    ensures var key := FullKey(e, random);
            var row := NewKeyRecord(newId, userId, name, tier, e, key, sha(key), createdAt);
            && CacheCoherent(keys[sha(key) := row], cache)
            && Validate(keys[sha(key) := row], cache, key, sha, now).result == Valid(row)
  {
    var key := FullKey(e, random);
    var h := sha(key);
    var row := NewKeyRecord(newId, userId, name, tier, e, key, h, createdAt);
    var keys' := keys[h := row];
    GeneratedKeyWellFormed(e, random);
    assert CacheKey(h) !in cache;
    forall ck | ck in cache
      ensures exists h' :: ck == CacheKey(h') && h' in keys'
    {
      var h' :| ck == CacheKey(h') && h' in keys;
      assert h' in keys';
    }
    forall h' | CacheKey(h') in cache
      ensures h' in keys' && Identity(cache[CacheKey(h')].value) == Identity(keys'[h'])
    {
      assert h' in keys;
      assert h' != h;
    }
  }

  // ---------------------------------------------------------------------
  // Revocation

  /**
   * The row after revocation.  `revokedReason: reason` is an ORM write: an
   * absent reason leaves the stored reason as it was, null clears it, a
   * string replaces it.
   */
  function RevokedRecord(k: ApiKey, reason: Http.Assign, now: int): (r: ApiKey)
    ensures IsRevoked(r) && r.revokedAt == Some(now)
    ensures reason.SetTo? ==> r.revokedReason == reason.value
    ensures !reason.SetTo? ==> r.revokedReason == k.revokedReason
    ensures r.(isActive := k.isActive, revokedAt := k.revokedAt, revokedReason := k.revokedReason) == k
  {
    k.(isActive := false, revokedAt := Some(now), revokedReason := Http.Assigned(reason, k.revokedReason))
  }

  /**
   * `update` by an id that does not exist throws; so does a reason that is
   * neither absent, null nor a string, which the ORM refuses before it
   * touches any row.
   */
  datatype RevokeError = KeyNotFound | InvalidReason

  method RevokeApiKey(db: Db, redis: Redis, keyId: string, reason: Http.Assign, now: int)
    returns (r: Result<ApiKey, RevokeError>)
    requires KeyTableValid(db.apiKeys)
    modifies db`apiKeys, redis`keyCache
    ensures reason.BadAssign? ==>
            r == Failure(InvalidReason) && db.apiKeys == old(db.apiKeys) && redis.keyCache == old(redis.keyCache)
    ensures !reason.BadAssign? && !HasKeyId(old(db.apiKeys), keyId) ==>
            r == Failure(KeyNotFound) && db.apiKeys == old(db.apiKeys) && redis.keyCache == old(redis.keyCache)
    ensures !reason.BadAssign? && HasKeyId(old(db.apiKeys), keyId) ==> r.Success?
    ensures r.Success? ==>
            var h := r.value.hashedKey;
            && h in old(db.apiKeys) && old(db.apiKeys)[h].id == keyId
            && r.value == RevokedRecord(old(db.apiKeys)[h], reason, now)
            && db.apiKeys == old(db.apiKeys)[h := r.value]
            && redis.keyCache == old(redis.keyCache) - {CacheKey(h)}
  {
    if reason.BadAssign? {
      return Failure(InvalidReason);
    }
    if !HasKeyId(db.apiKeys, keyId) {
      return Failure(KeyNotFound);
    }
    var h :| h in db.apiKeys && db.apiKeys[h].id == keyId;
    var updated := RevokedRecord(db.apiKeys[h], reason, now);
    db.apiKeys := db.apiKeys[h := updated];
    redis.keyCache := redis.keyCache - {CacheKey(updated.hashedKey)};
    r := Success(updated);
  }

  /** Revocation keeps the table indexed by hash with unique ids. */
  lemma RevokePreservesTable(keys: map<string, ApiKey>, h: string, reason: Http.Assign, now: int)
    requires KeyTableValid(keys) && h in keys
    ensures KeyTableValid(keys[h := RevokedRecord(keys[h], reason, now)])
  {
  }

  /** Revocation with eviction keeps the cache coherent. */
  lemma {:induction false} RevokePreservesCoherence(keys: map<string, ApiKey>, cache: map<string, Cached<ApiKey>>,
                                                    h: string, reason: Http.Assign, now: int)
    requires CacheCoherent(keys, cache) && h in keys
    ensures CacheCoherent(keys[h := RevokedRecord(keys[h], reason, now)], cache - {CacheKey(h)})
  {
    var keys' := keys[h := RevokedRecord(keys[h], reason, now)];
    var cache' := cache - {CacheKey(h)};
    forall ck | ck in cache'
      ensures exists h' :: ck == CacheKey(h') && h' in keys'
    {
      var h' :| ck == CacheKey(h') && h' in keys;
      assert h' in keys';
    }
    forall h' | CacheKey(h') in cache'
      ensures h' in keys' && Identity(cache'[CacheKey(h')].value) == Identity(keys'[h'])
    {
      assert h' != h;
    }
  }

  /** After revocation, any later validation of that key reaches the table and is rejected as revoked. */
  lemma {:induction false} RevokeThenReject(keys: map<string, ApiKey>, cache: map<string, Cached<ApiKey>>,
                                            h: string, reason: Http.Assign, revokedAt: int,
                                            token: string, sha: string -> string, later: int)
    requires h in keys && IsWellFormedKey(token) && sha(token) == h
    ensures var keys' := keys[h := RevokedRecord(keys[h], reason, revokedAt)];
            var s := Validate(keys', cache - {CacheKey(h)}, token, sha, later);
            s.result == Invalid("API key has been revoked", 401)
            && s.cache == (cache - {CacheKey(h)})[CacheKey(h) := Cached(keys'[h], 300)]
  {
  }
}
