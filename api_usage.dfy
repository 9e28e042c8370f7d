/**
 * GET /api/internal/api-usage: the dashboard's summary of the caller's API
 * keys — every key row, the twenty most recent usage rows, and totals
 * computed over the key rows.
 */
module ApiUsage {
  import opened Wrappers
  import opened Http
  import opened Schema
  import opened Stores
  import opened InternalAuth

  // ---------------------------------------------------------------------
  // Key rows and their totals

  /** Key rows the query returns: the distinct hashes of exactly the owner's keys, in some order. */
  predicate Enumerates(hs: seq<string>, keys: map<string, ApiKey>, userId: string)
  {
    && (forall i, j :: 0 <= i < j < |hs| ==> hs[i] != hs[j])
    && (forall h :: h in hs ==> h in keys && keys[h].userId == userId)
    && (forall h :: h in keys && keys[h].userId == userId ==> h in hs)
  }

  function SumBy(keys: map<string, ApiKey>, hs: seq<string>, f: ApiKey -> int): int
    requires forall h :: h in hs ==> h in keys
  {
    if hs == [] then 0 else f(keys[hs[0]]) + SumBy(keys, hs[1..], f)
  }

  function TotalRequestsOf(k: ApiKey): int { k.totalRequests }
  function SuccessfulOf(k: ApiKey): int { k.successfulRequests }
  function ActiveOf(k: ApiKey): int { if k.totalRequests > 0 then 1 else 0 }

  datatype Stats = Stats(totalRequests: int, successRate: real, activeKeys: int)

  /** A percentage, 0 when no request was made. */
  function SuccessRate(total: int, success: int): (r: real)
    ensures total <= 0 ==> r == 0.0
    ensures 0 < total && 0 <= success <= total ==> 0.0 <= r <= 100.0
    ensures 0 < total && success == total ==> r == 100.0
  {
    if total > 0 then (success as real / total as real) * 100.0 else 0.0
  }

  function StatsOf(keys: map<string, ApiKey>, hs: seq<string>): Stats
    requires forall h :: h in hs ==> h in keys
  {
    var total := SumBy(keys, hs, TotalRequestsOf);
    Stats(total, SuccessRate(total, SumBy(keys, hs, SuccessfulOf)), SumBy(keys, hs, ActiveOf))
  }

  /** Removing one row from the middle of the list takes exactly its share off the sum. */
  lemma {:induction false} SumByRemove(keys: map<string, ApiKey>, hs: seq<string>, k: nat, f: ApiKey -> int)
    requires forall h :: h in hs ==> h in keys
    requires k < |hs|
    ensures SumBy(keys, hs, f) == f(keys[hs[k]]) + SumBy(keys, hs[..k] + hs[k + 1..], f)
  {
    if k > 0 {
      SumByRemove(keys, hs[1..], k - 1, f);
      assert hs[1..][..k - 1] + hs[1..][k..] == (hs[..k] + hs[k + 1..])[1..];
    } else {
      assert hs[..k] + hs[k + 1..] == hs[1..];
    }
  }

  lemma RemoveAt(b: seq<string>, k: nat)
    requires k < |b|
    ensures multiset(b[..k] + b[k + 1..]) == multiset(b) - multiset{b[k]}
    ensures forall h :: h in b[..k] + b[k + 1..] ==> h in b
  {
    assert b == b[..k] + [b[k]] + b[k + 1..];
  }

  /** Sums over the key rows do not depend on the order the rows come back in. */
  lemma {:induction false} SumByPermutation(keys: map<string, ApiKey>, a: seq<string>, b: seq<string>, f: ApiKey -> int)
    requires forall h :: h in a ==> h in keys
    requires forall h :: h in b ==> h in keys
    requires multiset(a) == multiset(b)
    ensures SumBy(keys, a, f) == SumBy(keys, b, f)
    decreases |a|
  {
    if a == [] {
      assert |b| == |multiset(b)|;
    } else {
      assert a[0] in multiset(b);
      var k :| 0 <= k < |b| && b[k] == a[0];
      var rest := b[..k] + b[k + 1..];
      RemoveAt(b, k);
      assert a == [a[0]] + a[1..];
      assert multiset(a[1..]) == multiset(a) - multiset{a[0]};
      assert multiset(a[1..]) == multiset(rest);
      SumByRemove(keys, b, k, f);
      SumByPermutation(keys, a[1..], rest, f);
      assert SumBy(keys, a, f) == f(keys[a[0]]) + SumBy(keys, a[1..], f);
    }
  }

  /** In a list without repeats every element occurs once. */
  lemma {:induction false} DistinctOnce(hs: seq<string>, x: string)
    requires forall i, j :: 0 <= i < j < |hs| ==> hs[i] != hs[j]
    ensures multiset(hs)[x] == if x in hs then 1 else 0
  {
    if hs != [] {
      assert hs == [hs[0]] + hs[1..];
      DistinctOnce(hs[1..], x);
      if x == hs[0] {
        assert x !in hs[1..];
      }
    }
  }

  /** Two listings of the same owner's keys give the same totals. */
  lemma StatsOrderIndependent(keys: map<string, ApiKey>, userId: string, a: seq<string>, b: seq<string>)
    requires Enumerates(a, keys, userId) && Enumerates(b, keys, userId)
    ensures StatsOf(keys, a) == StatsOf(keys, b)
  {
    forall x ensures multiset(a)[x] == multiset(b)[x] {
      DistinctOnce(a, x);
      DistinctOnce(b, x);
    }
    assert multiset(a) == multiset(b);
    SumByPermutation(keys, a, b, TotalRequestsOf);
    SumByPermutation(keys, a, b, SuccessfulOf);
    SumByPermutation(keys, a, b, ActiveOf);
  }

  /** The active-key count is a count: between zero and the number of keys. */
  lemma {:induction false} ActiveKeysBounded(keys: map<string, ApiKey>, hs: seq<string>)
    requires forall h :: h in hs ==> h in keys
    ensures 0 <= SumBy(keys, hs, ActiveOf) <= |hs|
  {
    if hs != [] {
      ActiveKeysBounded(keys, hs[1..]);
    }
  }

  /** When every key's successes are within its total, the rate is a percentage. */
  lemma {:induction false} SuccessWithinTotal(keys: map<string, ApiKey>, hs: seq<string>)
    requires forall h :: h in hs ==> h in keys
    requires forall h :: h in hs ==> 0 <= keys[h].successfulRequests <= keys[h].totalRequests
    ensures 0 <= SumBy(keys, hs, SuccessfulOf) <= SumBy(keys, hs, TotalRequestsOf)
    ensures 0.0 <= StatsOf(keys, hs).successRate <= 100.0
  {
    if hs != [] {
      SuccessWithinTotal(keys, hs[1..]);
    }
  }

  // ---------------------------------------------------------------------
  // Recent usage rows

  function LogsOfUser(logs: seq<UsageLog>, userId: string): (r: seq<UsageLog>)
    ensures multiset(r) <= multiset(logs)
    ensures forall i :: 0 <= i < |r| ==> r[i].userId == userId
    ensures forall j :: 0 <= j < |logs| && logs[j].userId == userId ==> logs[j] in r
  {
    if logs == [] then []
    else
      assert logs == [logs[0]] + logs[1..];
      (if logs[0].userId == userId then [logs[0]] else []) + LogsOfUser(logs[1..], userId)
  }

  predicate NewestFirst(s: seq<UsageLog>)
  {
    forall i, j :: 0 <= i < j < |s| ==> s[i].timestamp >= s[j].timestamp
  }

  function InsertByTime(x: UsageLog, s: seq<UsageLog>): (r: seq<UsageLog>)
    requires NewestFirst(s)
    ensures NewestFirst(r)
    ensures multiset(r) == multiset(s) + multiset{x}
    ensures |r| == |s| + 1 && (r[0] == x || (s != [] && r[0] == s[0]))
  {
    if s == [] || x.timestamp >= s[0].timestamp then [x] + s
    else
      assert s == [s[0]] + s[1..];
      [s[0]] + InsertByTime(x, s[1..])
  }

  /** `orderBy: { timestamp: "desc" }`. */
  function SortByTimeDesc(s: seq<UsageLog>): (r: seq<UsageLog>)
    ensures NewestFirst(r)
    ensures multiset(r) == multiset(s)
  {
    if s == [] then []
    else
      assert s == [s[0]] + s[1..];
      InsertByTime(s[0], SortByTimeDesc(s[1..]))
  }

  const RecentTake := 20

  function RecentLogs(logs: seq<UsageLog>, userId: string): seq<UsageLog>
  {
    var sorted := SortByTimeDesc(LogsOfUser(logs, userId));
    if |sorted| <= RecentTake then sorted else sorted[..RecentTake]
  }

  /** A prefix of a newest-first list is newest first and drawn from it. */
  lemma PrefixOf(s: seq<UsageLog>, n: nat)
    requires n <= |s|
    ensures NewestFirst(s) ==> NewestFirst(s[..n])
    ensures multiset(s[..n]) <= multiset(s)
    ensures forall x :: x in multiset(s) - multiset(s[..n]) ==> x in s[n..]
  {
    assert s == s[..n] + s[n..];
  }

  /** At most twenty rows, newest first, all of them the caller's own rows. */
  lemma RecentLogsShape(logs: seq<UsageLog>, userId: string)
    ensures var r := RecentLogs(logs, userId);
      && |r| <= RecentTake
      && NewestFirst(r)
      && multiset(r) <= multiset(logs)
      && forall i :: 0 <= i < |r| ==> r[i].userId == userId
  {
    var mine := LogsOfUser(logs, userId);
    var sorted := SortByTimeDesc(mine);
    var r := RecentLogs(logs, userId);
    PrefixOf(sorted, |r|);
    assert r == sorted[..|r|];
    forall i | 0 <= i < |r| ensures r[i].userId == userId {
      assert r[i] in multiset(r);
      assert r[i] in multiset(mine);
    }
  }

  /** With at most twenty rows of the caller's, every one of them is listed. */
  lemma RecentLogsComplete(logs: seq<UsageLog>, userId: string)
    requires |LogsOfUser(logs, userId)| <= RecentTake
    ensures multiset(RecentLogs(logs, userId)) == multiset(LogsOfUser(logs, userId))
  {
    var mine := LogsOfUser(logs, userId);
    assert |SortByTimeDesc(mine)| == |mine| by {
      assert |multiset(SortByTimeDesc(mine))| == |multiset(mine)|;
    }
  }

  /** A row of the caller's that is left out is no newer than the oldest row listed. */
  lemma RecentLogsNewest(logs: seq<UsageLog>, userId: string, x: UsageLog)
    requires x in multiset(LogsOfUser(logs, userId)) - multiset(RecentLogs(logs, userId))
    ensures |RecentLogs(logs, userId)| == RecentTake
    ensures x.timestamp <= RecentLogs(logs, userId)[RecentTake - 1].timestamp
  {
    var mine := LogsOfUser(logs, userId);
    var sorted := SortByTimeDesc(mine);
    var r := RecentLogs(logs, userId);
    if |sorted| <= RecentTake {
      assert false;
    }
    PrefixOf(sorted, RecentTake);
    assert x in sorted[RecentTake..];
    var k :| RecentTake <= k < |sorted| && sorted[k] == x;
    assert sorted[RecentTake - 1] == r[RecentTake - 1];
  }

  // ---------------------------------------------------------------------
  // The response

  function KeyJson(k: ApiKey): Json
  {
    JObj(map["id" := JStr(k.id), "name" := JStr(k.name), "tier" := JStr(ApiKeyTierName(k.tier)),
             "dailyUsage" := JInt(k.dailyUsage), "dailyLimit" := JInt(k.dailyLimit),
             "monthlyUsage" := JInt(k.monthlyUsage), "monthlyLimit" := JInt(k.monthlyLimit),
             "totalRequests" := JInt(k.totalRequests), "successfulRequests" := JInt(k.successfulRequests),
             "failedRequests" := JInt(k.failedRequests)])
  }

  function LogJson(l: UsageLog, isoOf: int -> string): Json
  {
    JObj(map["id" := JStr(l.id), "endpoint" := JStr(l.endpoint), "statusCode" := JInt(l.statusCode),
             "processingTimeMs" := JInt(l.processingTimeMs), "tokensUsed" := OptInt(l.tokensUsed),
             "timestamp" := JStr(isoOf(l.timestamp))])
  }

  function StatsJson(s: Stats): Json
  {
    JObj(map["totalRequests" := JInt(s.totalRequests), "successRate" := JReal(s.successRate),
             "activeKeys" := JInt(s.activeKeys)])
  }

  function Dashboard(keys: map<string, ApiKey>, hs: seq<string>, logs: seq<UsageLog>, userId: string,
                     isoOf: int -> string): Response
    requires forall h :: h in hs ==> h in keys
  {
    var recent := RecentLogs(logs, userId);
    JsonResponse(JObj(map["success" := JBool(true), "data" := JObj(map[
      "apiKeys" := JArr(seq(|hs|, i requires 0 <= i < |hs| => KeyJson(keys[hs[i]]))),
      "recentLogs" := JArr(seq(|recent|, i requires 0 <= i < |recent| => LogJson(recent[i], isoOf))),
      "stats" := StatsJson(StatsOf(keys, hs))])]), 200)
  }

  /**
   * Reads only.  The key rows come back in an order the query leaves open;
   * the method picks one, and the totals are the same for any order.
   */
  method ApiUsageRoute(db: Db, session: Option<string>, isoOf: int -> string) returns (resp: Response)
    ensures Authenticate(db.users, session).Failure? ==> resp == Authenticate(db.users, session).error
    ensures Authenticate(db.users, session).Success? ==>
            var user := db.users[Authenticate(db.users, session).value];
            exists hs :: Enumerates(hs, db.apiKeys, user.id) && resp == Dashboard(db.apiKeys, hs, db.usageLogs, user.id, isoOf)
  {
    var caller := Authenticate(db.users, session);
    if caller.Failure? {
      return caller.error;
    }
    var user := db.users[caller.value];
    var keys := db.apiKeys;
    var pending := keys.Keys;
    var hs: seq<string> := [];
    while pending != {}
      invariant pending <= keys.Keys
      invariant forall i, j :: 0 <= i < j < |hs| ==> hs[i] != hs[j]
      invariant forall h :: h in hs ==> h in keys && keys[h].userId == user.id && h !in pending
      invariant forall h :: h in keys && keys[h].userId == user.id && h !in pending ==> h in hs
      decreases |pending|
    {
      var h :| h in pending;
      if keys[h].userId == user.id {
        hs := hs + [h];
      }
      pending := pending - {h};
    }
    assert Enumerates(hs, keys, user.id);
    resp := Dashboard(keys, hs, db.usageLogs, user.id, isoOf);
  }
}
