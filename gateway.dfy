/**
 * The gate in front of every v1 route: the Authorization header, key
 * validation, the IP allowlist, then the rate limiter.  The first failing
 * step answers; otherwise the route's handler runs with the key record and
 * the limiter's result, and its response is returned as it is.
 *
 * `isoOf` renders a millisecond timestamp as an ISO-8601 string.
 */
module Gateway {
  import opened Wrappers
  import opened Strings
  import opened Http
  import opened ApiErrors
  import opened Envelope
  import opened Schema
  import opened Stores
  import opened ApiKeys
  import opened RateLimiter

  datatype GateResult = Reject(response: Response) | Admit(key: ApiKey, rateLimit: RateLimitResult)

  const BearerPrefix := "Bearer "

  /** The token when the Authorization header is present and starts with "Bearer ". */
  function BearerToken(req: Request): (t: Option<string>)
    ensures t.Some? <==> Header(req, "authorization").Some? && StartsWith(Header(req, "authorization").value, BearerPrefix)
    ensures t.Some? ==> Header(req, "authorization").value == BearerPrefix + t.value
  {
    match Header(req, "authorization")
    case None => None
    case Some(h) =>
      if StartsWith(h, BearerPrefix) then Some(h[|BearerPrefix|..]) else None
  }

  /**
   * The caller address: the first comma-separated segment of X-Forwarded-For,
   * else X-Real-IP, else "unknown"; an empty string counts as absent.
   */
  function ClientIp(req: Request): (ip: string)
    ensures ip != ""
    ensures var xff := Header(req, "x-forwarded-for");
            xff.Some? && FirstSegment(xff.value, ',') != "" ==> ip == FirstSegment(xff.value, ',')
    ensures var xff := Header(req, "x-forwarded-for");
            var xri := Header(req, "x-real-ip");
            !(xff.Some? && FirstSegment(xff.value, ',') != "") ==>
              ip == (if xri.Some? && xri.value != "" then xri.value else "unknown")
  {
    var fromXff := match Header(req, "x-forwarded-for")
      case Some(x) => FirstSegment(x, ',')
      case None => "";
    if fromXff != "" then fromXff
    else match Header(req, "x-real-ip")
      case Some(x) => if x != "" then x else "unknown"
      case None => "unknown"
  }

  /** An empty allowlist admits every address. */
  predicate IpAllowed(k: ApiKey, req: Request)
  {
    |k.ipWhitelist| == 0 || ClientIp(req) in k.ipWhitelist
  }

  function KeyLimits(k: ApiKey): Limits
  {
    Limits(k.rateLimit, k.dailyLimit, k.monthlyLimit)
  }

  function RateLimitMessage(r: RateLimitResult): string
  {
    "Rate limit exceeded: " + IntToString(r.limit) + " requests per " +
    (if r.window.Some? then WindowName(r.window.value) else "undefined")
  }

  function RateLimitResponse(r: RateLimitResult, isoOf: int -> string): Response
  {
    ErrorResponse(RateLimitExceeded, RateLimitMessage(r), 429,
                  map["limit" := JInt(r.limit), "remaining" := JInt(0), "reset_at" := JStr(isoOf(r.resetAtMs))])
  }

  datatype GateStep = GateStep(result: GateResult, cache: map<string, Cached<ApiKey>>, counters: map<string, Counter>)

  function Gate(keys: map<string, ApiKey>, cache: map<string, Cached<ApiKey>>, counters: map<string, Counter>,
                req: Request, sha: string -> string, clock: Clock, isoOf: int -> string): GateStep
  {
    match BearerToken(req)
    case None =>
      GateStep(Reject(ErrorResponse(InvalidApiKey, "Missing or invalid Authorization header", 401, map[])), cache, counters)
    case Some(token) =>
      var v := Validate(keys, cache, token, sha, clock.nowMs);
      match v.result
      case Invalid(message, status) =>
        GateStep(Reject(ErrorResponse(InvalidApiKey, message, status, map[])), v.cache, counters)
      case Valid(k) =>
        if !IpAllowed(k, req) then
          GateStep(Reject(ErrorResponse(IpNotWhitelisted, "IP address not whitelisted", 403, map[])), v.cache, counters)
        else
          var rl := Consume(counters, k.id, KeyLimits(k), clock);
          if !rl.result.allowed then GateStep(Reject(RateLimitResponse(rl.result, isoOf)), v.cache, rl.counters)
          else GateStep(Admit(k, rl.result), v.cache, rl.counters)
  }

  method WithApiAuth(db: Db, redis: Redis, req: Request, sha: string -> string, clock: Clock, isoOf: int -> string)
    returns (g: GateResult)
    modifies redis`keyCache, redis`counters
    ensures Gate(db.apiKeys, old(redis.keyCache), old(redis.counters), req, sha, clock, isoOf) ==
            GateStep(g, redis.keyCache, redis.counters)
  {
    var authHeader := Header(req, "authorization");
    if authHeader.None? || !StartsWith(authHeader.value, BearerPrefix) {
      return Reject(ErrorResponse(InvalidApiKey, "Missing or invalid Authorization header", 401, map[]));
    }
    var apiKey := authHeader.value[|BearerPrefix|..];
    var authResult := ValidateApiKey(db, redis, apiKey, sha, clock.nowMs);
    if authResult.Invalid? {
      return Reject(ErrorResponse(InvalidApiKey, authResult.message, authResult.statusCode, map[]));
    }
    var keyData := authResult.key;
    if |keyData.ipWhitelist| > 0 {
      var clientIp := ClientIp(req);
      if clientIp !in keyData.ipWhitelist {
        return Reject(ErrorResponse(IpNotWhitelisted, "IP address not whitelisted", 403, map[]));
      }
    }
    var rateLimitResult := CheckRateLimit(redis, keyData.id, KeyLimits(keyData), clock);
    if !rateLimitResult.allowed {
      return Reject(RateLimitResponse(rateLimitResult, isoOf));
    }
    g := Admit(keyData, rateLimitResult);
  }

  /** A missing or non-Bearer header is answered with 401 before any cache or counter access. */
  lemma BadHeaderTouchesNothing(keys: map<string, ApiKey>, cache: map<string, Cached<ApiKey>>, counters: map<string, Counter>,
                                req: Request, sha: string -> string, clock: Clock, isoOf: int -> string)
    requires BearerToken(req).None?
    ensures Gate(keys, cache, counters, req, sha, clock, isoOf) ==
            GateStep(Reject(ErrorResponse(InvalidApiKey, "Missing or invalid Authorization header", 401, map[])), cache, counters)
  {
  }

  /**
   * Every validation failure is reported with code INVALID_API_KEY and the
   * validator's own message and status, and consumes no rate-limit counter.
   */
  lemma {:induction false} ValidationFailureReported(keys: map<string, ApiKey>, cache: map<string, Cached<ApiKey>>,
                                                     counters: map<string, Counter>, req: Request, sha: string -> string,
                                                     clock: Clock, isoOf: int -> string)
    requires BearerToken(req).Some?
    requires Validate(keys, cache, BearerToken(req).value, sha, clock.nowMs).result.Invalid?
    ensures var v := Validate(keys, cache, BearerToken(req).value, sha, clock.nowMs);
            Gate(keys, cache, counters, req, sha, clock, isoOf) ==
            GateStep(Reject(ErrorResponse(InvalidApiKey, v.result.message, v.result.statusCode, map[])), v.cache, counters)
    ensures ErrorResponse(InvalidApiKey, Validate(keys, cache, BearerToken(req).value, sha, clock.nowMs).result.message,
                          401, map[]).body.fields["error"].fields["code"] == JStr("INVALID_API_KEY")
  {
  }

  /**
   * The rate limiter is reached, and the counters change, exactly when the
   * header, the key and the allowlist all pass.
   */
  lemma {:induction false} CountersChangeOnlyPastChecks(keys: map<string, ApiKey>, cache: map<string, Cached<ApiKey>>,
                                                        counters: map<string, Counter>, req: Request, sha: string -> string,
                                                        clock: Clock, isoOf: int -> string)
    ensures var g := Gate(keys, cache, counters, req, sha, clock, isoOf);
            var t := BearerToken(req);
            var v := if t.Some? then Validate(keys, cache, t.value, sha, clock.nowMs).result else Invalid("", 0);
            if t.Some? && v.Valid? && IpAllowed(v.key, req)
            then g.counters == Consume(counters, v.key.id, KeyLimits(v.key), clock).counters
            else g.counters == counters
  {
  }

  /** Admitted exactly when every step passes; the handler then sees the validated record and the limiter's result. */
  lemma {:induction false} AdmitIff(keys: map<string, ApiKey>, cache: map<string, Cached<ApiKey>>,
                                    counters: map<string, Counter>, req: Request, sha: string -> string,
                                    clock: Clock, isoOf: int -> string, k: ApiKey, rl: RateLimitResult)
    ensures Gate(keys, cache, counters, req, sha, clock, isoOf).result == Admit(k, rl) <==>
            && BearerToken(req).Some?
            && Validate(keys, cache, BearerToken(req).value, sha, clock.nowMs).result == Valid(k)
            && IpAllowed(k, req)
            && Consume(counters, k.id, KeyLimits(k), clock).result == rl
            && rl.allowed
  {
  }

  /** A limiter rejection answers 429 with the window's ceiling, remaining 0 and the ISO reset time. */
  lemma {:induction false} RateLimitRejection(keys: map<string, ApiKey>, cache: map<string, Cached<ApiKey>>,
                                              counters: map<string, Counter>, req: Request, sha: string -> string,
                                              clock: Clock, isoOf: int -> string, token: string, k: ApiKey)
    requires BearerToken(req) == Some(token)
    requires Validate(keys, cache, token, sha, clock.nowMs).result == Valid(k)
    requires IpAllowed(k, req) && !Consume(counters, k.id, KeyLimits(k), clock).result.allowed
    ensures var rl := Consume(counters, k.id, KeyLimits(k), clock).result;
            var r := Gate(keys, cache, counters, req, sha, clock, isoOf).result;
            && r.Reject? && r.response.status == 429
            && r.response.body.fields["error"] ==
               JObj(map["code" := JStr("RATE_LIMIT_EXCEEDED"), "message" := JStr(RateLimitMessage(rl)),
                        "limit" := JInt(rl.limit), "remaining" := JInt(0), "reset_at" := JStr(isoOf(rl.resetAtMs))])
  {
    var rl := Consume(counters, k.id, KeyLimits(k), clock).result;
    assert Gate(keys, cache, counters, req, sha, clock, isoOf).result == Reject(RateLimitResponse(rl, isoOf));
    RateLimitResponseShape(rl, isoOf);
  }

  lemma RateLimitResponseShape(rl: RateLimitResult, isoOf: int -> string)
    ensures RateLimitResponse(rl, isoOf).status == 429
    ensures RateLimitResponse(rl, isoOf).body.fields["error"] ==
            JObj(map["code" := JStr("RATE_LIMIT_EXCEEDED"), "message" := JStr(RateLimitMessage(rl)),
                     "limit" := JInt(rl.limit), "remaining" := JInt(0), "reset_at" := JStr(isoOf(rl.resetAtMs))])
  {
    var extra := map["limit" := JInt(rl.limit), "remaining" := JInt(0), "reset_at" := JStr(isoOf(rl.resetAtMs))];
    var e := ErrorObject(RateLimitExceeded, RateLimitMessage(rl), extra);
    assert e == map["code" := JStr("RATE_LIMIT_EXCEEDED"), "message" := JStr(RateLimitMessage(rl)),
                    "limit" := JInt(rl.limit), "remaining" := JInt(0), "reset_at" := JStr(isoOf(rl.resetAtMs))];
  }

  /** With a coherent cache, a request carrying a key revoked in the table is never admitted and consumes no counter. */
  lemma {:induction false} RevokedKeyNeverAdmitted(keys: map<string, ApiKey>, cache: map<string, Cached<ApiKey>>,
                                                   counters: map<string, Counter>, req: Request, sha: string -> string,
                                                   clock: Clock, isoOf: int -> string)
    requires CacheCoherent(keys, cache)
    requires BearerToken(req).Some? && IsWellFormedKey(BearerToken(req).value)
    requires sha(BearerToken(req).value) in keys && IsRevoked(keys[sha(BearerToken(req).value)])
    ensures var g := Gate(keys, cache, counters, req, sha, clock, isoOf);
            g.result == Reject(ErrorResponse(InvalidApiKey, "API key has been revoked", 401, map[])) && g.counters == counters
  {
    RevokedInTableNeverAdmitted(keys, cache, BearerToken(req).value, sha, clock.nowMs);
  }

  /** An admitted request carries the limiter's allowed result, with both remainders present and non-negative. */
  lemma {:induction false} AdmittedWithinLimits(keys: map<string, ApiKey>, cache: map<string, Cached<ApiKey>>,
                                                counters: map<string, Counter>, req: Request, sha: string -> string,
                                                clock: Clock, isoOf: int -> string)
    requires Gate(keys, cache, counters, req, sha, clock, isoOf).result.Admit?
    ensures var rl := Gate(keys, cache, counters, req, sha, clock, isoOf).result.rateLimit;
            && rl.allowed && rl.remaining >= 0
            && rl.dailyRemaining.Some? && rl.dailyRemaining.value >= 0
            && rl.monthlyRemaining.Some? && rl.monthlyRemaining.value >= 0
  {
    var g := Gate(keys, cache, counters, req, sha, clock, isoOf).result;
    AdmitIff(keys, cache, counters, req, sha, clock, isoOf, g.key, g.rateLimit);
  }
}
