/**
 * GET /api/v1/usage: the key's limits, usage and statistics.  The key
 * record is the one the gateway admitted (cache-first, so its counters can
 * trail the table by up to the cache TTL); the statistics aggregate the
 * usage-log rows of that key.
 */
module V1Usage {
  import opened Wrappers
  import opened Http
  import opened Envelope
  import opened Schema
  import opened Stores
  import opened ApiKeys
  import opened RateLimiter
  import opened Gateway

  /** The log rows of one key, in table order. */
  function LogsOf(logs: seq<UsageLog>, apiKeyId: string): (r: seq<UsageLog>)
    ensures |r| <= |logs|
    ensures forall e :: e in r ==> e in logs && e.apiKeyId == apiKeyId
    ensures forall j :: 0 <= j < |logs| && logs[j].apiKeyId == apiKeyId ==> logs[j] in r
  {
    if logs == [] then []
    else (if logs[0].apiKeyId == apiKeyId then [logs[0]] else []) + LogsOf(logs[1..], apiKeyId)
  }

  function SumTime(logs: seq<UsageLog>): int
  {
    if logs == [] then 0 else logs[0].processingTimeMs + SumTime(logs[1..])
  }

  /** SQL SUM: null when no row has a value. */
  function SumTokens(logs: seq<UsageLog>): (r: Option<int>)
    ensures r.None? <==> forall i :: 0 <= i < |logs| ==> logs[i].tokensUsed.None?
  {
    if logs == [] then None
    else
      var rest := SumTokens(logs[1..]);
      assert forall i :: 1 <= i < |logs| ==> logs[i] == logs[1..][i - 1];
      match logs[0].tokensUsed
      case None => rest
      case Some(t) => Some(t + rest.GetOr(0))
  }

  datatype Aggregate = Aggregate(count: nat, avgProcessingTimeMs: Option<real>, sumTokensUsed: Option<int>)

  /** `usageLog.aggregate({ where: { apiKeyId }, _count, _avg: processingTimeMs, _sum: tokensUsed })`. */
  function AggregateOf(logs: seq<UsageLog>, apiKeyId: string): (a: Aggregate)
    ensures a.count == |LogsOf(logs, apiKeyId)|
    ensures a.avgProcessingTimeMs.None? <==> a.count == 0
  {
    var mine := LogsOf(logs, apiKeyId);
    Aggregate(|mine|, if |mine| == 0 then None else Some(SumTime(mine) as real / |mine| as real), SumTokens(mine))
  }

  /** `Math.round`: halves round up. */
  function Round(x: real): (r: int)
    ensures r as real <= x + 0.5 < r as real + 1.0
  {
    (x + 0.5).Floor
  }

  function UsageReport(k: ApiKey, a: Aggregate, isoOf: int -> string): Json
  {
    JObj(map[
      "api_key" := JObj(map["name" := JStr(k.name), "tier" := JStr(ApiKeyTierName(k.tier)),
                            "created_at" := JStr(isoOf(k.createdAt))]),
      "limits" := JObj(map["per_minute" := JInt(k.rateLimit), "per_day" := JInt(k.dailyLimit),
                           "per_month" := JInt(k.monthlyLimit)]),
      "usage" := JObj(map["today" := JInt(k.dailyUsage), "this_month" := JInt(k.monthlyUsage),
                          "daily_remaining" := JInt(k.dailyLimit - k.dailyUsage),
                          "monthly_remaining" := JInt(k.monthlyLimit - k.monthlyUsage)]),
      "statistics" := JObj(map["total_requests" := JInt(k.totalRequests),
                               "successful_requests" := JInt(k.successfulRequests),
                               "failed_requests" := JInt(k.failedRequests),
                               "avg_processing_time_ms" := JInt(Round(a.avgProcessingTimeMs.GetOr(0.0))),
                               "total_tokens_used" := JInt(a.sumTokensUsed.GetOr(0))])])
  }

  method UsageRoute(db: Db, redis: Redis, req: Request, sha: string -> string, clock: Clock, isoOf: int -> string)
    returns (resp: Response)
    modifies redis`keyCache, redis`counters
    ensures var g := Gate(db.apiKeys, old(redis.keyCache), old(redis.counters), req, sha, clock, isoOf);
            && redis.keyCache == g.cache && redis.counters == g.counters
            && resp == (if g.result.Reject? then g.result.response
                        else SuccessResponse(UsageReport(g.result.key, AggregateOf(db.usageLogs, g.result.key.id), isoOf), None, None))
  {
    var gate := WithApiAuth(db, redis, req, sha, clock, isoOf);
    if gate.Reject? {
      return gate.response;
    }
    var stats := AggregateOf(db.usageLogs, gate.key.id);
    resp := SuccessResponse(UsageReport(gate.key, stats, isoOf), None, None);
  }

  /** The report echoes the key's limits and counters, and each remainder is the limit less the usage. */
  lemma {:induction false} ReportFigures(k: ApiKey, a: Aggregate, isoOf: int -> string)
    ensures var r := UsageReport(k, a, isoOf).fields;
            && r["limits"].fields["per_minute"] == JInt(k.rateLimit)
            && r["limits"].fields["per_day"] == JInt(k.dailyLimit)
            && r["limits"].fields["per_month"] == JInt(k.monthlyLimit)
            && r["usage"].fields["daily_remaining"].i + r["usage"].fields["today"].i == k.dailyLimit
            && r["usage"].fields["monthly_remaining"].i + r["usage"].fields["this_month"].i == k.monthlyLimit
            && r["statistics"].fields["total_requests"] == JInt(k.totalRequests)
            && (a.sumTokensUsed.None? ==> r["statistics"].fields["total_tokens_used"] == JInt(0))
            && (a.avgProcessingTimeMs.None? ==> r["statistics"].fields["avg_processing_time_ms"] == JInt(0))
  {
    assert Round(0.0) == 0;
  }

  /** A new log row counts towards exactly its own key's statistics, adding its tokens. */
  lemma {:induction false} LogAppendCounts(logs: seq<UsageLog>, e: UsageLog, apiKeyId: string)
    ensures LogsOf(logs + [e], apiKeyId) == LogsOf(logs, apiKeyId) + (if e.apiKeyId == apiKeyId then [e] else [])
    ensures AggregateOf(logs + [e], apiKeyId).count == AggregateOf(logs, apiKeyId).count + (if e.apiKeyId == apiKeyId then 1 else 0)
    ensures AggregateOf(logs + [e], apiKeyId).sumTokensUsed.GetOr(0) ==
            AggregateOf(logs, apiKeyId).sumTokensUsed.GetOr(0) + (if e.apiKeyId == apiKeyId then e.tokensUsed.GetOr(0) else 0)
  {
    LogsOfAppend(logs, e, apiKeyId);
    SumTokensAppend(LogsOf(logs, apiKeyId), if e.apiKeyId == apiKeyId then [e] else []);
  }

  lemma {:induction false} LogsOfAppend(logs: seq<UsageLog>, e: UsageLog, apiKeyId: string)
    ensures LogsOf(logs + [e], apiKeyId) == LogsOf(logs, apiKeyId) + (if e.apiKeyId == apiKeyId then [e] else [])
    decreases |logs|
  {
    if logs == [] {
      assert LogsOf([e], apiKeyId) == (if e.apiKeyId == apiKeyId then [e] else []) + LogsOf([], apiKeyId);
    } else {
      assert (logs + [e])[1..] == logs[1..] + [e];
      assert (logs + [e])[0] == logs[0];
      LogsOfAppend(logs[1..], e, apiKeyId);
    }
  }

  lemma {:induction false} SumTokensAppend(a: seq<UsageLog>, b: seq<UsageLog>)
    ensures SumTokens(a + b).GetOr(0) == SumTokens(a).GetOr(0) + SumTokens(b).GetOr(0)
    decreases |a|
  {
    if a == [] {
      assert a + b == b;
    } else {
      assert (a + b)[1..] == a[1..] + b;
      assert (a + b)[0] == a[0];
      SumTokensAppend(a[1..], b);
    }
  }
}
