/**
 * POST /api/v1/analyze: body validation, the content-hash result cache,
 * the external analysis, the per-key aggregates and the usage log.
 *
 * The handler runs behind the gateway and receives the key record and the
 * limiter's result.  The outside world enters as an `Env`: the MD5 hex
 * digest, the analyzer, the request id, the elapsed time that is logged,
 * the clock, the id the database gives the usage-log row, and whether
 * the usage-log insert succeeds (its failure is caught and only printed).
 */
module V1Analyze {
  import opened Wrappers
  import opened Strings
  import opened Http
  import opened ApiErrors
  import opened Envelope
  import opened Schema
  import opened Stores
  import opened ApiKeys
  import opened RateLimiter
  import opened Gateway
  import opened KeyUsage
  import opened RequestSchemas
  import opened Prompts

  // ---------------------------------------------------------------------
  // Request schema

  datatype AnalyzeRequest = AnalyzeRequest(content: string, title: Option<string>, options: Option<AnalysisOptions>)

  const MinContent := 100
  const MaxContent := 50000
  const ContentTooShort := "Content must be at least 100 characters"

  function OptionsIssue(v: Option<Json>): (r: Option<Issue>)
    ensures r.None? <==> v.None? || (v.value.JObj? && OptionsWellTyped(v.value.fields))
  {
    if v.None? then None
    else if !v.value.JObj? then Some(Expected("object", v, "options"))
    else
      var o := v.value;
      var checks := [OptionalBool(Field(o, "include_keywords"), "options.include_keywords"),
                     OptionalBool(Field(o, "include_readability"), "options.include_readability"),
                     OptionalBool(Field(o, "include_seo"), "options.include_seo"),
                     OptionalString(Field(o, "keyword_focus"), "options.keyword_focus")];
      assert OptionsWellTyped(o.fields) <==> forall i :: 0 <= i < |checks| ==> checks[i].None? by {
        assert checks[0].None? <==> OptBool(o.fields, "include_keywords");
        assert checks[1].None? <==> OptBool(o.fields, "include_readability");
        assert checks[2].None? <==> OptBool(o.fields, "include_seo");
        assert checks[3].None? <==> OptStrField(o.fields, "keyword_focus");
      }
      FirstIssue(checks)
  }

  predicate OptBool(f: map<string, Json>, k: string)
  {
    k !in f || f[k].JBool?
  }

  predicate OptStrField(f: map<string, Json>, k: string)
  {
    k !in f || f[k].JStr?
  }

  predicate OptionsWellTyped(f: map<string, Json>)
  {
    OptBool(f, "include_keywords") && OptBool(f, "include_readability") && OptBool(f, "include_seo") &&
    OptStrField(f, "keyword_focus")
  }

  /** The three flags default to true once an options object is given. */
  function ParsedOptions(o: Json): AnalysisOptions
  {
    AnalysisOptions(Some(BoolOr(Field(o, "include_keywords"), true)),
                    Some(BoolOr(Field(o, "include_readability"), true)),
                    Some(BoolOr(Field(o, "include_seo"), true)),
                    StrOf(Field(o, "keyword_focus")))
  }

  /** The issue that decides the 400 answer: content first, then title, then options. */
  function RequestIssue(body: Json): (r: Option<Issue>)
    ensures r.None? <==> body.JObj? && RequestWellFormed(body.fields)
  {
    if !body.JObj? then Some(Expected("object", Some(body), ""))
    else
      var checks := [RequiredString(Field(body, "content"), "content", MinContent, ContentTooShort,
                                    MaxContent, AtMost(MaxContent)),
                     OptionalString(Field(body, "title"), "title"),
                     OptionsIssue(Field(body, "options"))];
      assert RequestWellFormed(body.fields) <==> forall i :: 0 <= i < |checks| ==> checks[i].None? by {
        assert checks[0].None? <==> "content" in body.fields && body.fields["content"].JStr?
                                    && MinContent <= |body.fields["content"].s| <= MaxContent;
        assert checks[1].None? <==> OptStrField(body.fields, "title");
        assert checks[2].None? <==>
               ("options" in body.fields ==> body.fields["options"].JObj? && OptionsWellTyped(body.fields["options"].fields));
      }
      FirstIssue(checks)
  }

  /** Every field rule of the schema holds. */
  predicate RequestWellFormed(f: map<string, Json>)
  {
    && "content" in f && f["content"].JStr? && MinContent <= |f["content"].s| <= MaxContent
    && OptStrField(f, "title")
    && ("options" in f ==> f["options"].JObj? && OptionsWellTyped(f["options"].fields))
  }

  function ParseAnalyzeRequest(body: Json): (r: Result<AnalyzeRequest, Issue>)
    ensures r.Failure? <==> RequestIssue(body).Some?
    ensures r.Failure? ==> r.error == RequestIssue(body).value
  {
    match RequestIssue(body)
    case Some(issue) => Failure(issue)
    case None =>
      var o := Field(body, "options");
      Success(AnalyzeRequest(Field(body, "content").value.s, StrOf(Field(body, "title")),
                             if o.Some? then Some(ParsedOptions(o.value)) else None))
  }

  /** The body is accepted exactly when it meets every field's type and length rule. */
  lemma {:induction false} AcceptIff(body: Json)
    ensures ParseAnalyzeRequest(body).Success? <==> body.JObj? && RequestWellFormed(body.fields)
    ensures ParseAnalyzeRequest(body).Success? ==>
            var r := ParseAnalyzeRequest(body).value;
            && r.content == body.fields["content"].s
            && r.title == (if "title" in body.fields then Some(body.fields["title"].s) else None)
  {
  }

  /** Content that is a string but too short is reported with the schema's own message, whatever else the body holds. */
  lemma ShortContentReportedFirst(body: Json)
    requires body.JObj? && "content" in body.fields && body.fields["content"].JStr?
    requires |body.fields["content"].s| < MinContent
    ensures ParseAnalyzeRequest(body) == Failure(Issue(ContentTooShort, "content"))
  {
  }

  /** Given options without flags turn every analysis section on. */
  lemma OptionsDefaultOn(o: Json)
    requires o.JObj? && o.fields == map[]
    ensures ParsedOptions(o) == AnalysisOptions(Some(true), Some(true), Some(true), None)
    ensures AnalysisLines(ParsedOptions(o)) == ReadabilityLine + SeoLine + KeywordLine
  {
  }

  // ---------------------------------------------------------------------
  // The handler

  datatype Env = Env(
    md5: string -> string,
    analyze: AnalyzeRequest -> Result<AnalysisResult, string>,
    requestId: string,
    elapsedMs: int,
    now: int,
    logId: string,
    logOk: bool)

  const Endpoint := "/api/v1/analyze"
  const ResultTtl := 86400

  /** The message the ORM throws when `update` finds no row with the id. */
  const MissingRowMessage := "Record to update not found."

  function ResultKey(contentHash: string): string
  {
    "analysis:" + contentHash
  }

  /** The row `logUsage` inserts. */
  function UsageEntry(k: ApiKey, env: Env, statusCode: int, tokensUsed: Option<int>, wordCount: Option<int>,
                      errorMessage: Option<string>): UsageLog
  {
    UsageLog(env.logId, k.id, k.userId, Endpoint, "POST", statusCode, env.elapsedMs, env.requestId, "unknown",
             tokensUsed, wordCount, errorMessage, env.now)
  }

  /** The log only grows, by the one entry when the insert succeeds; a failed insert is swallowed. */
  function Logged(logs: seq<UsageLog>, entry: UsageLog, ok: bool): (r: seq<UsageLog>)
    ensures logs <= r && |r| == |logs| + (if ok then 1 else 0)
    ensures ok ==> r[|logs|] == entry
  {
    if ok then logs + [entry] else logs
  }

  /** The aggregate update of one analysed request. */
  function Bump(now: int): ApiKey -> ApiKey
  {
    (r: ApiKey) => RecordAnalyzeSuccess(r, now)
  }

  datatype AnalyzeStep = AnalyzeStep(response: Response, keys: map<string, ApiKey>, logs: seq<UsageLog>,
                                     cache: map<string, Cached<AnalysisResult>>)

  function FailedResponse(requestId: string): Response
  {
    ErrorResponse(InternalError, "Analysis failed", 500, map["request_id" := JStr(requestId)])
  }

  /** The catch block: a 500 log with the thrown message, then the generic 500 answer. */
  function Thrown(keys: map<string, ApiKey>, logs: seq<UsageLog>, cache: map<string, Cached<AnalysisResult>>,
                  k: ApiKey, env: Env, message: string): AnalyzeStep
  {
    AnalyzeStep(FailedResponse(env.requestId), keys, Logged(logs, UsageEntry(k, env, 500, None, None, Some(message)), env.logOk), cache)
  }

  function HitResponse(cached: AnalysisResult, rl: RateLimitResult, requestId: string): Response
    requires rl.dailyRemaining.Some? && rl.monthlyRemaining.Some?
  {
    SuccessResponse(JObj(cached.fields), Some(Usage(rl.dailyRemaining.value, rl.monthlyRemaining.value)),
                    Some(map["X-Request-Id" := requestId, "X-Cache" := "HIT"]))
  }

  function MissResponse(result: AnalysisResult, rl: RateLimitResult, requestId: string): Response
    requires rl.dailyRemaining.Some? && rl.monthlyRemaining.Some?
  {
    SuccessResponse(JObj(result.fields), Some(Usage(rl.dailyRemaining.value - 1, rl.monthlyRemaining.value - 1)),
                    Some(map["X-Request-Id" := requestId, "X-RateLimit-Remaining" := IntToString(rl.remaining - 1)]))
  }

  /** A served analysis with its request: the three paths after validation. */
  function Serve(keys: map<string, ApiKey>, logs: seq<UsageLog>, cache: map<string, Cached<AnalysisResult>>,
                 k: ApiKey, rl: RateLimitResult, req: AnalyzeRequest, env: Env): AnalyzeStep
    requires rl.dailyRemaining.Some? && rl.monthlyRemaining.Some?
  {
    var ck := ResultKey(env.md5(req.content));
    if ck in cache then
      var cached := cache[ck].value;
      AnalyzeStep(HitResponse(cached, rl, env.requestId), keys,
                  Logged(logs, UsageEntry(k, env, 200, None, IntField(cached.fields, "word_count"), None), env.logOk), cache)
    else
      match env.analyze(req)
      case Failure(message) => Thrown(keys, logs, cache, k, env, message)
      case Success(result) =>
        var cache' := cache[ck := Cached(result, ResultTtl)];
        if !HasKeyId(keys, k.id) then Thrown(keys, logs, cache', k, env, MissingRowMessage)
        else
          AnalyzeStep(MissResponse(result, rl, env.requestId),
                      UpdateKeyById(keys, k.id, Bump(env.now)),
                      Logged(logs, UsageEntry(k, env, 200, IntField(result.fields, "tokens_used"),
                                              IntField(result.fields, "word_count"), None), env.logOk),
                      cache')
  }

  /** The whole handler; `body` is the parsed request body, a Failure when it is not JSON. */
  function Analyze(keys: map<string, ApiKey>, logs: seq<UsageLog>, cache: map<string, Cached<AnalysisResult>>,
                   k: ApiKey, rl: RateLimitResult, body: Result<Json, string>, env: Env): AnalyzeStep
    requires rl.dailyRemaining.Some? && rl.monthlyRemaining.Some?
  {
    match body
    case Failure(message) => Thrown(keys, logs, cache, k, env, message)
    case Success(j) =>
      match ParseAnalyzeRequest(j)
      case Failure(issue) =>
        AnalyzeStep(ErrorResponse(InvalidRequest, issue.message, 400, map["field" := JStr(issue.path)]), keys, logs, cache)
      case Success(req) => Serve(keys, logs, cache, k, rl, req, env)
  }

  method LogUsage(db: Db, entry: UsageLog, ok: bool)
    modifies db`usageLogs
    ensures db.usageLogs == Logged(old(db.usageLogs), entry, ok)
  {
    if ok {
      db.usageLogs := db.usageLogs + [entry];
    }
  }

  /** The `rateLimit.dailyRemaining!` of the source: the gateway only admits with both remainders present. */
  method HandleAnalyze(db: Db, redis: Redis, k: ApiKey, rl: RateLimitResult, body: Result<Json, string>, env: Env)
    returns (resp: Response)
    requires rl.dailyRemaining.Some? && rl.monthlyRemaining.Some?
    modifies db`apiKeys, db`usageLogs, redis`analysisCache
    ensures Analyze(old(db.apiKeys), old(db.usageLogs), old(redis.analysisCache), k, rl, body, env) ==
            AnalyzeStep(resp, db.apiKeys, db.usageLogs, redis.analysisCache)
  {
    if body.Failure? {
      LogUsage(db, UsageEntry(k, env, 500, None, None, Some(body.error)), env.logOk);
      return FailedResponse(env.requestId);
    }
    var validation := ParseAnalyzeRequest(body.value);
    if validation.Failure? {
      return ErrorResponse(InvalidRequest, validation.error.message, 400, map["field" := JStr(validation.error.path)]);
    }
    var req := validation.value;
    var contentHash := env.md5(req.content);
    var ck := ResultKey(contentHash);
    if ck in redis.analysisCache {
      var cached := redis.analysisCache[ck].value;
      LogUsage(db, UsageEntry(k, env, 200, None, IntField(cached.fields, "word_count"), None), env.logOk);
      return HitResponse(cached, rl, env.requestId);
    }
    var analysis := env.analyze(req);
    if analysis.Failure? {
      LogUsage(db, UsageEntry(k, env, 500, None, None, Some(analysis.error)), env.logOk);
      return FailedResponse(env.requestId);
    }
    var result := analysis.value;
    redis.analysisCache := redis.analysisCache[ck := Cached(result, ResultTtl)];
    if !HasKeyId(db.apiKeys, k.id) {
      LogUsage(db, UsageEntry(k, env, 500, None, None, Some(MissingRowMessage)), env.logOk);
      return FailedResponse(env.requestId);
    }
    db.apiKeys := UpdateKeyById(db.apiKeys, k.id, Bump(env.now));
    LogUsage(db, UsageEntry(k, env, 200, IntField(result.fields, "tokens_used"), IntField(result.fields, "word_count"), None), env.logOk);
    resp := MissResponse(result, rl, env.requestId);
  }

  // ---------------------------------------------------------------------
  // Properties

  /** A rejected body is answered 400 with the first issue and its dotted path, and nothing is written or logged. */
  lemma InvalidBodyWritesNothing(keys: map<string, ApiKey>, logs: seq<UsageLog>, cache: map<string, Cached<AnalysisResult>>,
                                 k: ApiKey, rl: RateLimitResult, j: Json, env: Env)
    requires rl.dailyRemaining.Some? && rl.monthlyRemaining.Some?
    requires RequestIssue(j).Some?
    ensures var s := Analyze(keys, logs, cache, k, rl, Success(j), env);
            var issue := RequestIssue(j).value;
            && s.response == ErrorResponse(InvalidRequest, issue.message, 400, map["field" := JStr(issue.path)])
            && s.keys == keys && s.logs == logs && s.cache == cache
  {
  }

  /**
   * A cache hit serves the stored analysis with the limiter's remainders and
   * `X-Cache: HIT`, never consults the analyzer, leaves the key table and the
   * cache alone and logs one 200 entry carrying the stored word count.
   */
  lemma {:induction false} CacheHit(keys: map<string, ApiKey>, logs: seq<UsageLog>, cache: map<string, Cached<AnalysisResult>>,
                                    k: ApiKey, rl: RateLimitResult, j: Json, env: Env, otherAnalyzer: AnalyzeRequest -> Result<AnalysisResult, string>)
    requires rl.dailyRemaining.Some? && rl.monthlyRemaining.Some?
    requires ParseAnalyzeRequest(j).Success?
    requires ResultKey(env.md5(ParseAnalyzeRequest(j).value.content)) in cache
    ensures var s := Analyze(keys, logs, cache, k, rl, Success(j), env);
            var cached := cache[ResultKey(env.md5(ParseAnalyzeRequest(j).value.content))].value;
            && s.response.status == 200
            && s.response.body.fields["data"] == JObj(cached.fields)
            && s.response.body.fields["usage"] == UsageJson(Usage(rl.dailyRemaining.value, rl.monthlyRemaining.value))
            && s.response.headers == map["X-Request-Id" := env.requestId, "X-Cache" := "HIT"]
            && s.keys == keys && s.cache == cache
            && s.logs == Logged(logs, UsageEntry(k, env, 200, None, IntField(cached.fields, "word_count"), None), env.logOk)
            && s == Analyze(keys, logs, cache, k, rl, Success(j), env.(analyze := otherAnalyzer))
  {
  }

  /**
   * A miss whose analysis succeeds for a key row that exists answers 200
   * with the fresh analysis and reports both remainders lowered by one more.
   */
  lemma {:induction false} CacheMissAnswer(keys: map<string, ApiKey>, logs: seq<UsageLog>, cache: map<string, Cached<AnalysisResult>>,
                                           k: ApiKey, rl: RateLimitResult, j: Json, req: AnalyzeRequest, env: Env)
    requires rl.dailyRemaining.Some? && rl.monthlyRemaining.Some?
    requires HasKeyId(keys, k.id)
    requires ParseAnalyzeRequest(j) == Success(req)
    requires ResultKey(env.md5(req.content)) !in cache
    requires env.analyze(req).Success?
    ensures var result := env.analyze(req).value;
            var r := Analyze(keys, logs, cache, k, rl, Success(j), env).response;
            && r.status == 200
            && r.body.fields["data"] == JObj(result.fields)
            && r.body.fields["usage"] == UsageJson(Usage(rl.dailyRemaining.value - 1, rl.monthlyRemaining.value - 1))
            && r.headers == map["X-Request-Id" := env.requestId, "X-RateLimit-Remaining" := IntToString(rl.remaining - 1)]
  {
    assert Analyze(keys, logs, cache, k, rl, Success(j), env).response == MissResponse(env.analyze(req).value, rl, env.requestId);
    MissShape(env.analyze(req).value, rl, env.requestId);
  }

  /**
   * The same miss stores the result for 24 hours, bumps the key's aggregates
   * by one and logs a 200 entry with tokens and words.
   */
  lemma {:induction false} CacheMissEffects(keys: map<string, ApiKey>, logs: seq<UsageLog>, cache: map<string, Cached<AnalysisResult>>,
                                            k: ApiKey, rl: RateLimitResult, j: Json, env: Env, h: string)
    requires rl.dailyRemaining.Some? && rl.monthlyRemaining.Some?
    requires KeyTableValid(keys) && h in keys && keys[h].id == k.id
    requires ParseAnalyzeRequest(j).Success?
    requires ResultKey(env.md5(ParseAnalyzeRequest(j).value.content)) !in cache
    requires env.analyze(ParseAnalyzeRequest(j).value).Success?
    ensures var req := ParseAnalyzeRequest(j).value;
            var result := env.analyze(req).value;
            var s := Analyze(keys, logs, cache, k, rl, Success(j), env);
            && s.cache == cache[ResultKey(env.md5(req.content)) := Cached(result, 86400)]
            && s.keys == keys[h := RecordAnalyzeSuccess(keys[h], env.now)]
            && s.logs == Logged(logs, UsageEntry(k, env, 200, IntField(result.fields, "tokens_used"),
                                                 IntField(result.fields, "word_count"), None), env.logOk)
  {
    assert HasKeyId(keys, k.id);
    UpdateByIdIsPointUpdate(keys, h, Bump(env.now));
  }

  /** The key table after one request: untouched, or the aggregate bump of the key's row. */
  lemma {:induction false} ServeKeys(keys: map<string, ApiKey>, logs: seq<UsageLog>, cache: map<string, Cached<AnalysisResult>>,
                                     k: ApiKey, rl: RateLimitResult, req: AnalyzeRequest, env: Env)
    requires rl.dailyRemaining.Some? && rl.monthlyRemaining.Some?
    ensures var s := Serve(keys, logs, cache, k, rl, req, env);
            && (s.keys == keys || s.keys == UpdateKeyById(keys, k.id, Bump(env.now)))
            && (s.keys != keys ==> s.response == MissResponse(env.analyze(req).value, rl, env.requestId))
            && s.response.status in {200, 500}
            && (s.response.status == 500 ==> s.response == FailedResponse(env.requestId) && s.keys == keys)
  {
    var ck := ResultKey(env.md5(req.content));
    if ck !in cache && env.analyze(req).Success? && HasKeyId(keys, k.id) {
      assert Serve(keys, logs, cache, k, rl, req, env).response == MissResponse(env.analyze(req).value, rl, env.requestId);
    }
  }

  /**
   * Every answer is 200, 400 or the generic 500 carrying the request id, and
   * a 500 leaves the key table alone.
   */
  lemma {:induction false} OutcomeShapes(keys: map<string, ApiKey>, logs: seq<UsageLog>, cache: map<string, Cached<AnalysisResult>>,
                                         k: ApiKey, rl: RateLimitResult, body: Result<Json, string>, env: Env)
    requires rl.dailyRemaining.Some? && rl.monthlyRemaining.Some?
    ensures var s := Analyze(keys, logs, cache, k, rl, body, env);
            s.response.status in {200, 400, 500}
    ensures var s := Analyze(keys, logs, cache, k, rl, body, env);
            s.response.status == 500 ==> s.response == FailedResponse(env.requestId) && s.keys == keys
  {
    if body.Success? && ParseAnalyzeRequest(body.value).Success? {
      ServeKeys(keys, logs, cache, k, rl, ParseAnalyzeRequest(body.value).value, env);
    }
  }

  /** The key table changes only together with a 200 from a fresh analysis. */
  lemma {:induction false} KeysChangeOnlyOnFreshAnalysis(keys: map<string, ApiKey>, logs: seq<UsageLog>,
                                                         cache: map<string, Cached<AnalysisResult>>,
                                                         k: ApiKey, rl: RateLimitResult, body: Result<Json, string>, env: Env)
    requires rl.dailyRemaining.Some? && rl.monthlyRemaining.Some?
    ensures var s := Analyze(keys, logs, cache, k, rl, body, env);
            s.keys != keys ==> s.response.status == 200 && s.response.headers.Keys == {"X-Request-Id", "X-RateLimit-Remaining"}
  {
    if body.Success? && ParseAnalyzeRequest(body.value).Success? {
      var req := ParseAnalyzeRequest(body.value).value;
      ServeKeys(keys, logs, cache, k, rl, req, env);
      var s := Serve(keys, logs, cache, k, rl, req, env);
      assert Analyze(keys, logs, cache, k, rl, body, env) == s;
      if s.keys != keys {
        MissShape(env.analyze(req).value, rl, env.requestId);
      }
    }
  }

  lemma MissShape(result: AnalysisResult, rl: RateLimitResult, requestId: string)
    requires rl.dailyRemaining.Some? && rl.monthlyRemaining.Some?
    ensures var r := MissResponse(result, rl, requestId);
            && r.status == 200
            && r.body.fields["data"] == JObj(result.fields)
            && r.body.fields["usage"] == UsageJson(Usage(rl.dailyRemaining.value - 1, rl.monthlyRemaining.value - 1))
            && r.headers == map["X-Request-Id" := requestId, "X-RateLimit-Remaining" := IntToString(rl.remaining - 1)]
            && r.headers.Keys == {"X-Request-Id", "X-RateLimit-Remaining"}
  {
  }

  /** The handler never counts a failed request: no row's `failedRequests` moves. */
  lemma {:induction false} FailedCountUnchanged(keys: map<string, ApiKey>, logs: seq<UsageLog>, cache: map<string, Cached<AnalysisResult>>,
                                                k: ApiKey, rl: RateLimitResult, body: Result<Json, string>, env: Env)
    requires rl.dailyRemaining.Some? && rl.monthlyRemaining.Some?
    ensures var s := Analyze(keys, logs, cache, k, rl, body, env);
            s.keys.Keys == keys.Keys && forall h :: h in keys ==> s.keys[h].failedRequests == keys[h].failedRequests
  {
    if body.Success? && ParseAnalyzeRequest(body.value).Success? {
      var req := ParseAnalyzeRequest(body.value).value;
      ServeKeys(keys, logs, cache, k, rl, req, env);
      var u := UpdateKeyById(keys, k.id, Bump(env.now));
      forall h | h in keys
        ensures u[h].failedRequests == keys[h].failedRequests
      {
        if keys[h].id == k.id {
          assert u[h] == RecordAnalyzeSuccess(keys[h], env.now);
        }
      }
    }
  }

  lemma {:induction false} ServeLoggingIndependent(keys: map<string, ApiKey>, logs: seq<UsageLog>,
                                                   cache: map<string, Cached<AnalysisResult>>,
                                                   k: ApiKey, rl: RateLimitResult, req: AnalyzeRequest, env: Env)
    requires rl.dailyRemaining.Some? && rl.monthlyRemaining.Some?
    ensures var a := Serve(keys, logs, cache, k, rl, req, env.(logOk := true));
            var b := Serve(keys, logs, cache, k, rl, req, env.(logOk := false));
            a.response == b.response && a.keys == b.keys && a.cache == b.cache && b.logs == logs && |a.logs| <= |logs| + 1
  {
    var e1, e2 := env.(logOk := true), env.(logOk := false);
    var ck := ResultKey(env.md5(req.content));
    if ck !in cache && env.analyze(req).Success? && HasKeyId(keys, k.id) {
      assert Serve(keys, logs, cache, k, rl, req, e2).logs == logs;
    }
  }

  /** Whether the usage-log insert succeeds never changes the answer, the key table or the cache. */
  lemma {:induction false} LoggingNeverChangesAnswer(keys: map<string, ApiKey>, logs: seq<UsageLog>,
                                                     cache: map<string, Cached<AnalysisResult>>,
                                                     k: ApiKey, rl: RateLimitResult, body: Result<Json, string>, env: Env)
    requires rl.dailyRemaining.Some? && rl.monthlyRemaining.Some?
    ensures var a := Analyze(keys, logs, cache, k, rl, body, env.(logOk := true));
            var b := Analyze(keys, logs, cache, k, rl, body, env.(logOk := false));
            a.response == b.response && a.keys == b.keys && a.cache == b.cache && b.logs == logs && |a.logs| <= |logs| + 1
  {
    if body.Success? && ParseAnalyzeRequest(body.value).Success? {
      ServeLoggingIndependent(keys, logs, cache, k, rl, ParseAnalyzeRequest(body.value).value, env);
    }
  }

  /** The aggregate bump keeps the key table indexed and the key cache coherent. */
  lemma {:induction false} AnalyzeKeepsKeyInvariants(keys: map<string, ApiKey>, logs: seq<UsageLog>,
                                                     cache: map<string, Cached<AnalysisResult>>, keyCache: map<string, Cached<ApiKey>>,
                                                     k: ApiKey, rl: RateLimitResult, body: Result<Json, string>, env: Env)
    requires rl.dailyRemaining.Some? && rl.monthlyRemaining.Some?
    requires KeyTableValid(keys) && CacheCoherent(keys, keyCache)
    ensures var s := Analyze(keys, logs, cache, k, rl, body, env);
            KeyTableValid(s.keys) && CacheCoherent(s.keys, keyCache)
  {
    if body.Success? && ParseAnalyzeRequest(body.value).Success? {
      ServeKeys(keys, logs, cache, k, rl, ParseAnalyzeRequest(body.value).value, env);
    }
    AggregateUpdateKeepsInvariants(keys, keyCache, k.id, Bump(env.now));
  }

  /**
   * The result cache is keyed by the content alone: two valid requests with
   * the same content, whatever their titles and options, are served the same
   * cached analysis.
   */
  lemma {:induction false} CacheIgnoresOptions(keys: map<string, ApiKey>, logs: seq<UsageLog>, cache: map<string, Cached<AnalysisResult>>,
                                               k: ApiKey, rl: RateLimitResult, j1: Json, j2: Json, env: Env)
    requires rl.dailyRemaining.Some? && rl.monthlyRemaining.Some?
    requires ParseAnalyzeRequest(j1).Success? && ParseAnalyzeRequest(j2).Success?
    requires ParseAnalyzeRequest(j1).value.content == ParseAnalyzeRequest(j2).value.content
    requires ResultKey(env.md5(ParseAnalyzeRequest(j1).value.content)) in cache
    ensures Analyze(keys, logs, cache, k, rl, Success(j1), env) == Analyze(keys, logs, cache, k, rl, Success(j2), env)
  {
  }

  /** When the request took the minute's last slot, a fresh analysis reports `X-RateLimit-Remaining: -1`. */
  lemma LastSlotHeader(result: AnalysisResult, rl: RateLimitResult, requestId: string)
    requires rl.dailyRemaining.Some? && rl.monthlyRemaining.Some? && rl.remaining == 0
    ensures MissResponse(result, rl, requestId).headers["X-RateLimit-Remaining"] == "-1"
  {
  }

  // ---------------------------------------------------------------------
  // The route: gateway, then handler

  method AnalyzeRoute(db: Db, redis: Redis, req: Request, body: Result<Json, string>, sha: string -> string,
                      clock: Clock, isoOf: int -> string, env: Env)
    returns (resp: Response)
    modifies db`apiKeys, db`usageLogs, redis`keyCache, redis`counters, redis`analysisCache
    ensures var g := Gate(old(db.apiKeys), old(redis.keyCache), old(redis.counters), req, sha, clock, isoOf);
            && redis.keyCache == g.cache && redis.counters == g.counters
            && (g.result.Reject? ==>
                  resp == g.result.response && db.apiKeys == old(db.apiKeys) && db.usageLogs == old(db.usageLogs)
                  && redis.analysisCache == old(redis.analysisCache))
            && (g.result.Admit? ==>
                  g.result.rateLimit.dailyRemaining.Some? && g.result.rateLimit.monthlyRemaining.Some? &&
                  Analyze(old(db.apiKeys), old(db.usageLogs), old(redis.analysisCache), g.result.key, g.result.rateLimit, body, env) ==
                  AnalyzeStep(resp, db.apiKeys, db.usageLogs, redis.analysisCache))
  {
    var gate := WithApiAuth(db, redis, req, sha, clock, isoOf);
    if gate.Reject? {
      return gate.response;
    }
    AdmittedWithinLimits(old(db.apiKeys), old(redis.keyCache), old(redis.counters), req, sha, clock, isoOf);
    resp := HandleAnalyze(db, redis, gate.key, gate.rateLimit, body, env);
  }
}
