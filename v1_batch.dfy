/**
 * POST /api/v1/batch-analyze: up to ten items analysed together, one
 * aggregate update for the whole batch, no usage log.
 *
 * The analyses are settled together; the model takes each item's outcome
 * from the `analyze` parameter, which gives the fulfilled value or the
 * rejection message.
 */
module V1Batch {
  import opened Wrappers
  import opened Strings
  import opened Http
  import opened ApiErrors
  import opened Envelope
  import opened Schema
  import opened Stores
  import opened ApiKeys
  import opened RateLimiter
  import opened Gateway
  import opened KeyUsage
  import opened RequestSchemas
  import opened Prompts
  import V1Analyze

  // ---------------------------------------------------------------------
  // Request schema

  datatype BatchItem = BatchItem(id: string, content: string, title: Option<string>)
  datatype BatchRequest = BatchRequest(items: seq<BatchItem>, options: Option<AnalysisOptions>)

  const MinItems := 1
  const MaxItems := 10

  predicate ItemWellFormed(v: Json)
  {
    && v.JObj?
    && "id" in v.fields && v.fields["id"].JStr?
    && "content" in v.fields && v.fields["content"].JStr?
    && V1Analyze.MinContent <= |v.fields["content"].s| <= V1Analyze.MaxContent
    && V1Analyze.OptStrField(v.fields, "title")
  }

  function ItemIssue(v: Json, path: string): (r: Option<Issue>)
    ensures r.None? <==> ItemWellFormed(v)
  {
    if !v.JObj? then Some(Expected("object", Some(v), path))
    else
      var checks := [AnyString(Field(v, "id"), Join(path, "id")),
                     RequiredString(Field(v, "content"), Join(path, "content"), V1Analyze.MinContent,
                                    AtLeast(V1Analyze.MinContent), V1Analyze.MaxContent, AtMost(V1Analyze.MaxContent)),
                     OptionalString(Field(v, "title"), Join(path, "title"))];
      assert ItemWellFormed(v) <==> forall i :: 0 <= i < |checks| ==> checks[i].None? by {
        assert checks[0].None? <==> "id" in v.fields && v.fields["id"].JStr?;
        assert checks[1].None? <==> "content" in v.fields && v.fields["content"].JStr?
                                    && V1Analyze.MinContent <= |v.fields["content"].s| <= V1Analyze.MaxContent;
        assert checks[2].None? <==> V1Analyze.OptStrField(v.fields, "title");
      }
      FirstIssue(checks)
  }

  /** The first issue among `items[from..]`, each reported under `items.<index>`. */
  function ItemsIssueFrom(items: seq<Json>, from: nat): (r: Option<Issue>)
    requires from <= |items|
    ensures r.None? <==> forall i :: from <= i < |items| ==> ItemWellFormed(items[i])
    decreases |items| - from
  {
    if from == |items| then None
    else
      var here := ItemIssue(items[from], "items." + NatToString(from));
      if here.Some? then here else ItemsIssueFrom(items, from + 1)
  }

  /** The array's own length rules are reported before any item's issue. */
  function ItemsIssue(v: Option<Json>): (r: Option<Issue>)
    ensures r.None? <==> v.Some? && v.value.JArr? && MinItems <= |v.value.items| <= MaxItems
                         && forall i :: 0 <= i < |v.value.items| ==> ItemWellFormed(v.value.items[i])
  {
    if v.None? || !v.value.JArr? then Some(Expected("array", v, "items"))
    else if |v.value.items| < MinItems then Some(Issue("Array must contain at least 1 element(s)", "items"))
    else if |v.value.items| > MaxItems then Some(Issue("Array must contain at most 10 element(s)", "items"))
    else ItemsIssueFrom(v.value.items, 0)
  }

  predicate BatchOptionsWellTyped(f: map<string, Json>)
  {
    V1Analyze.OptBool(f, "include_keywords") && V1Analyze.OptBool(f, "include_readability") &&
    V1Analyze.OptBool(f, "include_seo")
  }

  function BatchOptionsIssue(v: Option<Json>): (r: Option<Issue>)
    ensures r.None? <==> v.None? || (v.value.JObj? && BatchOptionsWellTyped(v.value.fields))
  {
    if v.None? then None
    else if !v.value.JObj? then Some(Expected("object", v, "options"))
    else
      var o := v.value;
      var checks := [OptionalBool(Field(o, "include_keywords"), "options.include_keywords"),
                     OptionalBool(Field(o, "include_readability"), "options.include_readability"),
                     OptionalBool(Field(o, "include_seo"), "options.include_seo")];
      assert BatchOptionsWellTyped(o.fields) <==> forall i :: 0 <= i < |checks| ==> checks[i].None? by {
        assert checks[0].None? <==> V1Analyze.OptBool(o.fields, "include_keywords");
        assert checks[1].None? <==> V1Analyze.OptBool(o.fields, "include_readability");
        assert checks[2].None? <==> V1Analyze.OptBool(o.fields, "include_seo");
      }
      FirstIssue(checks)
  }

  predicate BatchWellFormed(body: Json)
  {
    && body.JObj?
    && "items" in body.fields && body.fields["items"].JArr?
    && MinItems <= |body.fields["items"].items| <= MaxItems
    && (forall i :: 0 <= i < |body.fields["items"].items| ==> ItemWellFormed(body.fields["items"].items[i]))
    && ("options" in body.fields ==> body.fields["options"].JObj? && BatchOptionsWellTyped(body.fields["options"].fields))
  }

  function BatchIssue(body: Json): (r: Option<Issue>)
    ensures r.None? <==> BatchWellFormed(body)
  {
    if !body.JObj? then Some(Expected("object", Some(body), ""))
    else
      var checks := [ItemsIssue(Field(body, "items")), BatchOptionsIssue(Field(body, "options"))];
      assert BatchWellFormed(body) <==> forall i :: 0 <= i < |checks| ==> checks[i].None? by {
        assert checks[0].None? <==>
               ("items" in body.fields && body.fields["items"].JArr?
                && MinItems <= |body.fields["items"].items| <= MaxItems
                && (forall i :: 0 <= i < |body.fields["items"].items| ==> ItemWellFormed(body.fields["items"].items[i])));
        assert checks[1].None? <==>
               ("options" in body.fields ==> body.fields["options"].JObj? && BatchOptionsWellTyped(body.fields["options"].fields));
      }
      FirstIssue(checks)
  }

  function ParsedItem(v: Json): BatchItem
    requires ItemWellFormed(v)
  {
    BatchItem(v.fields["id"].s, v.fields["content"].s, StrOf(Field(v, "title")))
  }

  /** Unknown option keys are stripped: a batch never passes a focus keyword on. */
  function ParsedBatchOptions(o: Json): (r: AnalysisOptions)
    ensures r.keywordFocus.None?
  {
    AnalysisOptions(Some(BoolOr(Field(o, "include_keywords"), true)),
                    Some(BoolOr(Field(o, "include_readability"), true)),
                    Some(BoolOr(Field(o, "include_seo"), true)),
                    None)
  }

  function ParseBatchRequest(body: Json): (r: Result<BatchRequest, Issue>)
    ensures r.Success? <==> BatchWellFormed(body)
    ensures r.Failure? ==> r.error == BatchIssue(body).value
    ensures r.Success? ==>
            var raw := body.fields["items"].items;
            && MinItems <= |r.value.items| == |raw| <= MaxItems
            && forall i :: 0 <= i < |raw| ==>
                 && r.value.items[i].id == raw[i].fields["id"].s && r.value.items[i].content == raw[i].fields["content"].s
                 && r.value.items[i].title == StrOf(Field(raw[i], "title"))
  {
    match BatchIssue(body)
    case Some(issue) => Failure(issue)
    case None =>
      var raw := body.fields["items"].items;
      var o := Field(body, "options");
      Success(BatchRequest(seq(|raw|, i requires 0 <= i < |raw| => ParsedItem(raw[i])),
                           if o.Some? then Some(ParsedBatchOptions(o.value)) else None))
  }

  // ---------------------------------------------------------------------
  // Formatting the settled results

  function Input(item: BatchItem, options: Option<AnalysisOptions>): V1Analyze.AnalyzeRequest
  {
    V1Analyze.AnalyzeRequest(item.content, item.title, options)
  }

  function Outcomes(req: BatchRequest, analyze: V1Analyze.AnalyzeRequest -> Result<AnalysisResult, string>)
    : (r: seq<Result<AnalysisResult, string>>)
    ensures |r| == |req.items|
    ensures forall i :: 0 <= i < |r| ==> r[i] == analyze(Input(req.items[i], req.options))
  {
    seq(|req.items|, i requires 0 <= i < |req.items| => analyze(Input(req.items[i], req.options)))
  }

  /** One entry of `results`: exactly one of `analysis` and `error` is non-null. */
  function FormatResult(id: string, outcome: Result<AnalysisResult, string>): (j: Json)
    ensures j.JObj? && j.fields.Keys == {"id", "status", "analysis", "error"} && j.fields["id"] == JStr(id)
    ensures j.fields["status"] == JStr(if outcome.Success? then "success" else "failed")
    ensures (j.fields["analysis"] == JNull) != (j.fields["error"] == JNull)
    ensures outcome.Success? ==> j.fields["analysis"] == JObj(outcome.value.fields)
    ensures outcome.Failure? ==> j.fields["error"] == JStr(outcome.error)
  {
    match outcome
    case Success(a) =>
      JObj(map["id" := JStr(id), "status" := JStr("success"), "analysis" := JObj(a.fields), "error" := JNull])
    case Failure(m) =>
      JObj(map["id" := JStr(id), "status" := JStr("failed"), "analysis" := JNull, "error" := JStr(m)])
  }

  function FormatResults(items: seq<BatchItem>, outcomes: seq<Result<AnalysisResult, string>>): (r: seq<Json>)
    requires |items| == |outcomes|
    ensures |r| == |items|
    ensures forall i :: 0 <= i < |r| ==> r[i] == FormatResult(items[i].id, outcomes[i])
  {
    seq(|items|, i requires 0 <= i < |items| => FormatResult(items[i].id, outcomes[i]))
  }

  function Successful(outcomes: seq<Result<AnalysisResult, string>>): (n: nat)
    ensures n <= |outcomes|
  {
    if outcomes == [] then 0
    else (if outcomes[0].Success? then 1 else 0) + Successful(outcomes[1..])
  }

  /** `tokens_used || 0` of a fulfilled analysis. */
  function TokensOf(a: AnalysisResult): int
  {
    IntField(a.fields, "tokens_used").GetOr(0)
  }

  function TotalTokens(outcomes: seq<Result<AnalysisResult, string>>): int
  {
    if outcomes == [] then 0
    else (if outcomes[0].Success? then TokensOf(outcomes[0].value) else 0) + TotalTokens(outcomes[1..])
  }

  /** The fulfilled positions from `from` on. */
  function FulfilledFrom(outcomes: seq<Result<AnalysisResult, string>>, from: nat): set<nat>
  {
    set i: nat | from <= i < |outcomes| && outcomes[i].Success?
  }

  lemma {:induction false} SuccessfulFrom(outcomes: seq<Result<AnalysisResult, string>>, from: nat)
    requires from <= |outcomes|
    ensures Successful(outcomes[from..]) == |FulfilledFrom(outcomes, from)|
    decreases |outcomes| - from
  {
    if from == |outcomes| {
      assert FulfilledFrom(outcomes, from) == {};
    } else {
      SuccessfulFrom(outcomes, from + 1);
      assert outcomes[from..][1..] == outcomes[from + 1..];
      assert outcomes[from..][0] == outcomes[from];
      var here: set<nat> := if outcomes[from].Success? then {from} else {};
      assert FulfilledFrom(outcomes, from) == here + FulfilledFrom(outcomes, from + 1);
      assert from !in FulfilledFrom(outcomes, from + 1);
    }
  }

  /** The number fulfilled is the size of the set of fulfilled positions. */
  lemma {:induction false} SuccessfulCountsFulfilled(outcomes: seq<Result<AnalysisResult, string>>)
    ensures Successful(outcomes) == |FulfilledFrom(outcomes, 0)|
  {
    SuccessfulFrom(outcomes, 0);
    assert outcomes[0..] == outcomes;
  }

  /** Every item counted as successful exactly when every analysis was fulfilled. */
  lemma {:induction false} AllFulfilledIff(outcomes: seq<Result<AnalysisResult, string>>)
    ensures Successful(outcomes) == |outcomes| <==> forall i :: 0 <= i < |outcomes| ==> outcomes[i].Success?
    decreases |outcomes|
  {
    if outcomes != [] {
      var rest := outcomes[1..];
      AllFulfilledIff(rest);
      assert forall i :: 0 <= i < |rest| ==> rest[i] == outcomes[i + 1];
      if forall i :: 0 <= i < |outcomes| ==> outcomes[i].Success? {
        assert outcomes[0].Success?;
        assert forall i :: 0 <= i < |rest| ==> rest[i].Success?;
      }
      if Successful(outcomes) == |outcomes| {
        assert outcomes[0].Success?;
        forall i | 0 <= i < |outcomes| ensures outcomes[i].Success? {
          if i > 0 { assert outcomes[i] == rest[i - 1]; }
        }
      }
    }
  }

  /** Splitting a batch splits both the count and the token sum. */
  lemma {:induction false} TotalsAdditive(a: seq<Result<AnalysisResult, string>>, b: seq<Result<AnalysisResult, string>>)
    ensures Successful(a + b) == Successful(a) + Successful(b)
    ensures TotalTokens(a + b) == TotalTokens(a) + TotalTokens(b)
    decreases |a|
  {
    if a == [] {
      assert a + b == b;
    } else {
      assert (a + b)[1..] == a[1..] + b;
      assert (a + b)[0] == a[0];
      TotalsAdditive(a[1..], b);
    }
  }

  /** Failed items add nothing to the token sum, whatever their messages. */
  lemma {:induction false} TokensOnlyFromFulfilled(outcomes: seq<Result<AnalysisResult, string>>)
    requires forall i :: 0 <= i < |outcomes| ==> outcomes[i].Failure?
    ensures TotalTokens(outcomes) == 0 && Successful(outcomes) == 0
    decreases |outcomes|
  {
    if outcomes != [] {
      TokensOnlyFromFulfilled(outcomes[1..]);
    }
  }

  // ---------------------------------------------------------------------
  // The handler

  const QuotaMessage := "Not enough daily quota for batch"

  datatype BatchStep = BatchStep(response: Response, keys: map<string, ApiKey>)

  function FailedResponse(requestId: string): Response
  {
    ErrorResponse(InternalError, "Batch analysis failed", 500, map["request_id" := JStr(requestId)])
  }

  function ReportJson(items: seq<BatchItem>, outcomes: seq<Result<AnalysisResult, string>>): Json
    requires |items| == |outcomes|
  {
    var n := |items|;
    var ok := Successful(outcomes);
    JObj(map["results" := JArr(FormatResults(items, outcomes)), "total_items" := JInt(n), "successful" := JInt(ok),
             "failed" := JInt(n - ok), "total_tokens_used" := JInt(TotalTokens(outcomes))])
  }

  function BatchResponse(req: BatchRequest, outcomes: seq<Result<AnalysisResult, string>>, rl: RateLimitResult,
                         requestId: string): Response
    requires |req.items| == |outcomes|
    requires rl.dailyRemaining.Some? && rl.monthlyRemaining.Some?
  {
    SuccessResponse(ReportJson(req.items, outcomes),
                    Some(Usage(rl.dailyRemaining.value - |req.items|, rl.monthlyRemaining.value - |req.items|)),
                    Some(map["X-Request-Id" := requestId]))
  }

  function BumpBatch(n: int, successful: int, now: int): ApiKey -> ApiKey
  {
    (r: ApiKey) => RecordBatch(r, n, successful, now)
  }

  function Batch(keys: map<string, ApiKey>, k: ApiKey, rl: RateLimitResult, body: Result<Json, string>,
                 analyze: V1Analyze.AnalyzeRequest -> Result<AnalysisResult, string>, requestId: string, now: int): BatchStep
    requires rl.dailyRemaining.Some? && rl.monthlyRemaining.Some?
  {
    match body
    case Failure(_) => BatchStep(FailedResponse(requestId), keys)
    case Success(j) =>
      match ParseBatchRequest(j)
      case Failure(issue) => BatchStep(ErrorResponse(InvalidRequest, issue.message, 400, map[]), keys)
      case Success(req) =>
        if |req.items| > rl.dailyRemaining.value then
          BatchStep(ErrorResponse(QuotaExceeded, QuotaMessage, 402, map[]), keys)
        else
          var outcomes := Outcomes(req, analyze);
          if !HasKeyId(keys, k.id) then BatchStep(FailedResponse(requestId), keys)
          else
            BatchStep(BatchResponse(req, outcomes, rl, requestId),
                      UpdateKeyById(keys, k.id, BumpBatch(|req.items|, Successful(outcomes), now)))
  }

  method HandleBatch(db: Db, k: ApiKey, rl: RateLimitResult, body: Result<Json, string>,
                     analyze: V1Analyze.AnalyzeRequest -> Result<AnalysisResult, string>, requestId: string, now: int)
    returns (resp: Response)
    requires rl.dailyRemaining.Some? && rl.monthlyRemaining.Some?
    modifies db`apiKeys
    ensures Batch(old(db.apiKeys), k, rl, body, analyze, requestId, now) == BatchStep(resp, db.apiKeys)
  {
    if body.Failure? {
      return FailedResponse(requestId);
    }
    var validation := ParseBatchRequest(body.value);
    if validation.Failure? {
      return ErrorResponse(InvalidRequest, validation.error.message, 400, map[]);
    }
    var req := validation.value;
    if |req.items| > rl.dailyRemaining.value {
      return ErrorResponse(QuotaExceeded, QuotaMessage, 402, map[]);
    }
    var results := Outcomes(req, analyze);
    var successful := Successful(results);
    if !HasKeyId(db.apiKeys, k.id) {
      return FailedResponse(requestId);
    }
    db.apiKeys := UpdateKeyById(db.apiKeys, k.id, BumpBatch(|req.items|, successful, now));
    resp := BatchResponse(req, results, rl, requestId);
  }

  method BatchRoute(db: Db, redis: Redis, req: Request, body: Result<Json, string>, sha: string -> string,
                    clock: Clock, isoOf: int -> string, analyze: V1Analyze.AnalyzeRequest -> Result<AnalysisResult, string>,
                    requestId: string)
    returns (resp: Response)
    modifies db`apiKeys, redis`keyCache, redis`counters
    ensures var g := Gate(old(db.apiKeys), old(redis.keyCache), old(redis.counters), req, sha, clock, isoOf);
            && redis.keyCache == g.cache && redis.counters == g.counters
            && (g.result.Reject? ==> resp == g.result.response && db.apiKeys == old(db.apiKeys))
            && (g.result.Admit? ==>
                  g.result.rateLimit.dailyRemaining.Some? && g.result.rateLimit.monthlyRemaining.Some? &&
                  Batch(old(db.apiKeys), g.result.key, g.result.rateLimit, body, analyze, requestId, clock.nowMs) ==
                  BatchStep(resp, db.apiKeys))
  {
    var gate := WithApiAuth(db, redis, req, sha, clock, isoOf);
    if gate.Reject? {
      return gate.response;
    }
    AdmittedWithinLimits(old(db.apiKeys), old(redis.keyCache), old(redis.counters), req, sha, clock, isoOf);
    resp := HandleBatch(db, gate.key, gate.rateLimit, body, analyze, requestId, clock.nowMs);
  }

  // ---------------------------------------------------------------------
  // Properties

  /** A rejected body is answered 400 with the first issue's message and no field; nothing is analysed or written. */
  lemma InvalidBatchWritesNothing(keys: map<string, ApiKey>, k: ApiKey, rl: RateLimitResult, j: Json,
                                  analyze: V1Analyze.AnalyzeRequest -> Result<AnalysisResult, string>, requestId: string, now: int)
    requires rl.dailyRemaining.Some? && rl.monthlyRemaining.Some?
    requires !BatchWellFormed(j)
    ensures Batch(keys, k, rl, Success(j), analyze, requestId, now) ==
            BatchStep(ErrorResponse(InvalidRequest, BatchIssue(j).value.message, 400, map[]), keys)
  {
  }

  /** More items than the day has left is answered 402 before any analysis or write. */
  lemma QuotaCheckedFirst(keys: map<string, ApiKey>, k: ApiKey, rl: RateLimitResult, j: Json,
                          analyze: V1Analyze.AnalyzeRequest -> Result<AnalysisResult, string>, requestId: string, now: int)
    requires rl.dailyRemaining.Some? && rl.monthlyRemaining.Some?
    requires ParseBatchRequest(j).Success? && |ParseBatchRequest(j).value.items| > rl.dailyRemaining.value
    ensures Batch(keys, k, rl, Success(j), analyze, requestId, now) ==
            BatchStep(ErrorResponse(QuotaExceeded, QuotaMessage, 402, map[]), keys)
  {
  }

  /**
   * An accepted batch within quota reports one result per item in item
   * order, successful + failed = total_items, and both remainders lowered by
   * n and still non-negative for the day.
   */
  lemma {:induction false} BatchReport(keys: map<string, ApiKey>, k: ApiKey, rl: RateLimitResult, j: Json, req: BatchRequest,
                                       analyze: V1Analyze.AnalyzeRequest -> Result<AnalysisResult, string>, requestId: string, now: int)
    requires rl.dailyRemaining.Some? && rl.monthlyRemaining.Some?
    requires HasKeyId(keys, k.id)
    requires ParseBatchRequest(j) == Success(req) && |req.items| <= rl.dailyRemaining.value
    ensures var n := |req.items|;
            var r := Batch(keys, k, rl, Success(j), analyze, requestId, now).response;
            && r.status == 200 && r.headers == map["X-Request-Id" := requestId]
            && r.body.fields["data"] == ReportJson(req.items, Outcomes(req, analyze))
            && r.body.fields["usage"] == UsageJson(Usage(rl.dailyRemaining.value - n, rl.monthlyRemaining.value - n))
            && 1 <= n <= 10 && rl.dailyRemaining.value - n >= 0
  {
    BatchServes(keys, k, rl, j, req, analyze, requestId, now);
    BatchResponseShape(req, Outcomes(req, analyze), rl, requestId);
  }

  lemma BatchServes(keys: map<string, ApiKey>, k: ApiKey, rl: RateLimitResult, j: Json, req: BatchRequest,
                    analyze: V1Analyze.AnalyzeRequest -> Result<AnalysisResult, string>, requestId: string, now: int)
    requires rl.dailyRemaining.Some? && rl.monthlyRemaining.Some?
    requires HasKeyId(keys, k.id)
    requires ParseBatchRequest(j) == Success(req) && |req.items| <= rl.dailyRemaining.value
    ensures Batch(keys, k, rl, Success(j), analyze, requestId, now).response ==
            BatchResponse(req, Outcomes(req, analyze), rl, requestId)
    ensures 1 <= |req.items| <= 10
  {
  }

  lemma BatchResponseShape(req: BatchRequest, outcomes: seq<Result<AnalysisResult, string>>, rl: RateLimitResult,
                           requestId: string)
    requires |req.items| == |outcomes|
    requires rl.dailyRemaining.Some? && rl.monthlyRemaining.Some?
    ensures var r := BatchResponse(req, outcomes, rl, requestId);
            var n := |req.items|;
            && r.status == 200 && r.headers == map["X-Request-Id" := requestId]
            && r.body.fields["data"] == ReportJson(req.items, outcomes)
            && r.body.fields["usage"] == UsageJson(Usage(rl.dailyRemaining.value - n, rl.monthlyRemaining.value - n))
  {
  }

  /** The report's counts: successful + failed = total_items, each entry in item order with its id and status. */
  lemma ReportCounts(items: seq<BatchItem>, outcomes: seq<Result<AnalysisResult, string>>)
    requires |items| == |outcomes|
    ensures var d := ReportJson(items, outcomes).fields;
            && d["successful"].i + d["failed"].i == d["total_items"].i == |items|
            && 0 <= d["failed"].i
            && |d["results"].items| == |items|
            && forall i :: 0 <= i < |items| ==>
                 d["results"].items[i].fields["id"] == JStr(items[i].id)
                 && (d["results"].items[i].fields["status"] == JStr("success") <==> outcomes[i].Success?)
  {
  }

  /** With n items of which s were fulfilled, the key's row gains n requests, s successes and n − s failures. */
  lemma {:induction false} BatchAggregates(keys: map<string, ApiKey>, k: ApiKey, rl: RateLimitResult, j: Json,
                                           analyze: V1Analyze.AnalyzeRequest -> Result<AnalysisResult, string>,
                                           requestId: string, now: int, h: string)
    requires rl.dailyRemaining.Some? && rl.monthlyRemaining.Some?
    requires KeyTableValid(keys) && h in keys && keys[h].id == k.id
    requires ParseBatchRequest(j).Success? && |ParseBatchRequest(j).value.items| <= rl.dailyRemaining.value
    ensures var req := ParseBatchRequest(j).value;
            var n := |req.items|;
            var s := Successful(Outcomes(req, analyze));
            var after := Batch(keys, k, rl, Success(j), analyze, requestId, now).keys;
            && after == keys[h := RecordBatch(keys[h], n, s, now)]
            && after[h].totalRequests == keys[h].totalRequests + n
            && after[h].successfulRequests == keys[h].successfulRequests + s
            && after[h].failedRequests == keys[h].failedRequests + (n - s)
            && after[h].dailyUsage == keys[h].dailyUsage + n && after[h].monthlyUsage == keys[h].monthlyUsage + n
  {
    var req := ParseBatchRequest(j).value;
    assert HasKeyId(keys, k.id);
    UpdateByIdIsPointUpdate(keys, h, BumpBatch(|req.items|, Successful(Outcomes(req, analyze)), now));
  }

  /** An unparseable body or a missing key row is answered 500 with the request id and writes nothing. */
  lemma FailuresWriteNothing(keys: map<string, ApiKey>, k: ApiKey, rl: RateLimitResult, body: Result<Json, string>,
                             analyze: V1Analyze.AnalyzeRequest -> Result<AnalysisResult, string>, requestId: string, now: int)
    requires rl.dailyRemaining.Some? && rl.monthlyRemaining.Some?
    requires body.Failure? || (!HasKeyId(keys, k.id) && ParseBatchRequest(body.value).Success?
                               && |ParseBatchRequest(body.value).value.items| <= rl.dailyRemaining.value)
    ensures Batch(keys, k, rl, body, analyze, requestId, now) == BatchStep(FailedResponse(requestId), keys)
  {
  }
}
