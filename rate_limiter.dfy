/**
 * The three-window rate limiter: every call increments the minute, day and
 * month counters of a key, sets a counter's expiry when it was just created,
 * then checks minute, day and month in that order.
 *
 * The clock is a value: `nowMs`, its ISO-8601 UTC rendering, and the next local
 * midnight and the next local first-of-month (the day and month reset times are
 * computed in local time, the day and month buckets in UTC).
 */
module RateLimiter {
  import opened Wrappers
  import opened Strings
  import opened Stores
  import opened ApiKeys

  datatype Clock = Clock(nowMs: int, iso: string, nextLocalMidnightMs: int, nextLocalMonthStartMs: int)

  datatype Window = Minute | Day | Month

  function WindowName(w: Window): string
  {
    match w
    case Minute => "minute"
    case Day => "day"
    case Month => "month"
  }

  datatype RateLimitResult = RateLimitResult(
    allowed: bool,
    limit: int,
    remaining: int,
    resetAtMs: int,
    window: Option<Window>,
    dailyRemaining: Option<int>,
    monthlyRemaining: Option<int>)

  const MinuteTtl := 60
  const DayTtl := 86400
  const MonthTtl := 2592000

  function MinuteBucket(nowMs: int): int { nowMs / 60000 }

  /** `Math.ceil(now / 60000) * 60000`: the start of the next minute, or now itself on a boundary. */
  function MinuteReset(nowMs: int): (r: int)
    ensures r % 60000 == 0 && nowMs <= r < nowMs + 60000
  {
    -((-nowMs) / 60000) * 60000
  }

  function Prefix(apiKeyId: string): string { "ratelimit:" + apiKeyId + ":" }

  function MinuteKey(apiKeyId: string, c: Clock): string
  {
    Prefix(apiKeyId) + "minute:" + IntToString(MinuteBucket(c.nowMs))
  }

  function DayKey(apiKeyId: string, c: Clock): string
  {
    Prefix(apiKeyId) + "day:" + Take(c.iso, 10)
  }

  function MonthKey(apiKeyId: string, c: Clock): string
  {
    Prefix(apiKeyId) + "month:" + Take(c.iso, 7)
  }

  /** The three counters of one call are distinct keys. */
  lemma {:induction false} WindowKeysDistinct(apiKeyId: string, c: Clock)
    ensures MinuteKey(apiKeyId, c) != DayKey(apiKeyId, c)
    ensures MinuteKey(apiKeyId, c) != MonthKey(apiKeyId, c)
    ensures DayKey(apiKeyId, c) != MonthKey(apiKeyId, c)
  {
    var n := |Prefix(apiKeyId)|;
    assert MinuteKey(apiKeyId, c)[n] == 'm' && MinuteKey(apiKeyId, c)[n + 1] == 'i';
    assert DayKey(apiKeyId, c)[n] == 'd';
    assert MonthKey(apiKeyId, c)[n] == 'm' && MonthKey(apiKeyId, c)[n + 1] == 'o';
  }

  /** A minute counter is never a day or month counter, whatever the two clocks. */
  lemma {:induction false} MinuteKeyNotDayOrMonth(apiKeyId: string, c1: Clock, c2: Clock)
    ensures MinuteKey(apiKeyId, c1) != DayKey(apiKeyId, c2)
    ensures MinuteKey(apiKeyId, c1) != MonthKey(apiKeyId, c2)
  {
    var n := |Prefix(apiKeyId)|;
    assert MinuteKey(apiKeyId, c1)[n] == 'm' && MinuteKey(apiKeyId, c1)[n + 1] == 'i';
    assert DayKey(apiKeyId, c2)[n] == 'd';
    assert MonthKey(apiKeyId, c2)[n + 1] == 'o';
  }

  /** Calls in different minutes use different minute counters. */
  lemma {:induction false} MinuteKeysSeparate(apiKeyId: string, c1: Clock, c2: Clock)
    requires MinuteBucket(c1.nowMs) != MinuteBucket(c2.nowMs)
    ensures MinuteKey(apiKeyId, c1) != MinuteKey(apiKeyId, c2)
  {
    IntToStringInjective(MinuteBucket(c1.nowMs), MinuteBucket(c2.nowMs));
    var p := Prefix(apiKeyId) + "minute:";
    assert MinuteKey(apiKeyId, c1)[|p|..] == IntToString(MinuteBucket(c1.nowMs));
    assert MinuteKey(apiKeyId, c2)[|p|..] == IntToString(MinuteBucket(c2.nowMs));
  }

  function Count(counters: map<string, Counter>, k: string): int
  {
    if k in counters then counters[k].count else 0
  }

  /** `INCR`: a missing key counts from 0; an existing expiry is kept. */
  function Incr(counters: map<string, Counter>, k: string): (r: map<string, Counter>)
    ensures k in r && r[k].count == Count(counters, k) + 1
    ensures r[k].ttlSeconds == if k in counters then counters[k].ttlSeconds else None
  {
    counters[k := Counter(Count(counters, k) + 1, if k in counters then counters[k].ttlSeconds else None)]
  }

  /** `EXPIRE k ttl`, issued only when the increment returned 1. */
  function ExpireIfFirst(counters: map<string, Counter>, k: string, count: int, ttl: int): (r: map<string, Counter>)
    requires k in counters
    ensures k in r && r[k].count == counters[k].count
    ensures r[k].ttlSeconds == if count == 1 then Some(ttl) else counters[k].ttlSeconds
  {
    if count == 1 then counters[k := counters[k].(ttlSeconds := Some(ttl))] else counters
  }

  /** The check chain over the post-increment counts. */
  function Decide(m: int, d: int, mo: int, limits: Limits, c: Clock): (r: RateLimitResult)
    ensures r.allowed <==> m <= limits.perMinute && d <= limits.perDay && mo <= limits.perMonth
    ensures m > limits.perMinute ==>
            r == RateLimitResult(false, limits.perMinute, 0, MinuteReset(c.nowMs), Some(Minute), None, None)
    ensures m <= limits.perMinute && d > limits.perDay ==>
            r == RateLimitResult(false, limits.perDay, 0, c.nextLocalMidnightMs, Some(Day), None, None)
    ensures m <= limits.perMinute && d <= limits.perDay && mo > limits.perMonth ==>
            r == RateLimitResult(false, limits.perMonth, 0, c.nextLocalMonthStartMs, Some(Month), None, None)
    ensures r.allowed ==>
            && r.limit == limits.perMinute && r.resetAtMs == MinuteReset(c.nowMs) && r.window.None?
            && r.remaining == limits.perMinute - m >= 0
            && r.dailyRemaining == Some(limits.perDay - d) && limits.perDay - d >= 0
            && r.monthlyRemaining == Some(limits.perMonth - mo) && limits.perMonth - mo >= 0
  {
    if m > limits.perMinute then
      RateLimitResult(false, limits.perMinute, 0, MinuteReset(c.nowMs), Some(Minute), None, None)
    else if d > limits.perDay then
      RateLimitResult(false, limits.perDay, 0, c.nextLocalMidnightMs, Some(Day), None, None)
    else if mo > limits.perMonth then
      RateLimitResult(false, limits.perMonth, 0, c.nextLocalMonthStartMs, Some(Month), None, None)
    else
      RateLimitResult(true, limits.perMinute, limits.perMinute - m, MinuteReset(c.nowMs), None,
                      Some(limits.perDay - d), Some(limits.perMonth - mo))
  }

  datatype RateStep = RateStep(result: RateLimitResult, counters: map<string, Counter>)

  /** One call: the three increments, the expiries of the counters that were just created, then the decision. */
  function Consume(counters: map<string, Counter>, apiKeyId: string, limits: Limits, c: Clock): RateStep
  {
    var mk, dk, ok := MinuteKey(apiKeyId, c), DayKey(apiKeyId, c), MonthKey(apiKeyId, c);
    var m := Count(counters, mk) + 1;
    var c1 := Incr(counters, mk);
    var d := Count(c1, dk) + 1;
    var c2 := Incr(c1, dk);
    var mo := Count(c2, ok) + 1;
    var c3 := Incr(c2, ok);
    var e1 := ExpireIfFirst(c3, mk, m, MinuteTtl);
    var e2 := ExpireIfFirst(e1, dk, d, DayTtl);
    var e3 := ExpireIfFirst(e2, ok, mo, MonthTtl);
    RateStep(Decide(m, d, mo, limits, c), e3)
  }

  method CheckRateLimit(redis: Redis, apiKeyId: string, limits: Limits, c: Clock) returns (r: RateLimitResult)
    modifies redis`counters
    ensures Consume(old(redis.counters), apiKeyId, limits, c) == RateStep(r, redis.counters)
  {
    var minuteKey := MinuteKey(apiKeyId, c);
    var dayKey := DayKey(apiKeyId, c);
    var monthKey := MonthKey(apiKeyId, c);

    var minuteCount := Count(redis.counters, minuteKey) + 1;
    redis.counters := Incr(redis.counters, minuteKey);
    var dayCount := Count(redis.counters, dayKey) + 1;
    redis.counters := Incr(redis.counters, dayKey);
    var monthCount := Count(redis.counters, monthKey) + 1;
    redis.counters := Incr(redis.counters, monthKey);

    WindowKeysDistinct(apiKeyId, c);
    if minuteCount == 1 {
      redis.counters := redis.counters[minuteKey := redis.counters[minuteKey].(ttlSeconds := Some(MinuteTtl))];
    }
    if dayCount == 1 {
      redis.counters := redis.counters[dayKey := redis.counters[dayKey].(ttlSeconds := Some(DayTtl))];
    }
    if monthCount == 1 {
      redis.counters := redis.counters[monthKey := redis.counters[monthKey].(ttlSeconds := Some(MonthTtl))];
    }

    if minuteCount > limits.perMinute {
      return RateLimitResult(false, limits.perMinute, 0, MinuteReset(c.nowMs), Some(Minute), None, None);
    }
    if dayCount > limits.perDay {
      return RateLimitResult(false, limits.perDay, 0, c.nextLocalMidnightMs, Some(Day), None, None);
    }
    if monthCount > limits.perMonth {
      return RateLimitResult(false, limits.perMonth, 0, c.nextLocalMonthStartMs, Some(Month), None, None);
    }
    r := RateLimitResult(true, limits.perMinute, limits.perMinute - minuteCount, MinuteReset(c.nowMs), None,
                         Some(limits.perDay - dayCount), Some(limits.perMonth - monthCount));
  }

  /** Every call, admitted or not, raises each of its three counters by exactly one. */
  lemma {:induction false} ConsumeCounts(counters: map<string, Counter>, apiKeyId: string, limits: Limits, c: Clock)
    ensures Count(Consume(counters, apiKeyId, limits, c).counters, MinuteKey(apiKeyId, c)) == Count(counters, MinuteKey(apiKeyId, c)) + 1
    ensures Count(Consume(counters, apiKeyId, limits, c).counters, DayKey(apiKeyId, c)) == Count(counters, DayKey(apiKeyId, c)) + 1
    ensures Count(Consume(counters, apiKeyId, limits, c).counters, MonthKey(apiKeyId, c)) == Count(counters, MonthKey(apiKeyId, c)) + 1
  {
    WindowKeysDistinct(apiKeyId, c);
  }

  /** The decision reads the raised counts. */
  lemma {:induction false} ConsumeDecides(counters: map<string, Counter>, apiKeyId: string, limits: Limits, c: Clock)
    ensures var s := Consume(counters, apiKeyId, limits, c);
            s.result == Decide(Count(s.counters, MinuteKey(apiKeyId, c)), Count(s.counters, DayKey(apiKeyId, c)),
                               Count(s.counters, MonthKey(apiKeyId, c)), limits, c)
  {
    WindowKeysDistinct(apiKeyId, c);
  }

  /** No Redis key other than the call's three counters changes. */
  lemma {:induction false} ConsumeFrame(counters: map<string, Counter>, apiKeyId: string, limits: Limits, c: Clock, k: string)
    requires k != MinuteKey(apiKeyId, c) && k != DayKey(apiKeyId, c) && k != MonthKey(apiKeyId, c)
    ensures var s := Consume(counters, apiKeyId, limits, c);
            (k in s.counters <==> k in counters) && (k in counters ==> s.counters[k] == counters[k])
  {
  }

  /** An expiry is set on exactly the counters the call just created; others keep theirs. */
  lemma {:induction false} ConsumeExpiries(counters: map<string, Counter>, apiKeyId: string, limits: Limits, c: Clock)
    ensures var s := Consume(counters, apiKeyId, limits, c);
            var mk := MinuteKey(apiKeyId, c);
            s.counters[mk].ttlSeconds ==
              if Count(counters, mk) == 0 then Some(MinuteTtl) else if mk in counters then counters[mk].ttlSeconds else None
    ensures var s := Consume(counters, apiKeyId, limits, c);
            var dk := DayKey(apiKeyId, c);
            s.counters[dk].ttlSeconds ==
              if Count(counters, dk) == 0 then Some(DayTtl) else if dk in counters then counters[dk].ttlSeconds else None
    ensures var s := Consume(counters, apiKeyId, limits, c);
            var ok := MonthKey(apiKeyId, c);
            s.counters[ok].ttlSeconds ==
              if Count(counters, ok) == 0 then Some(MonthTtl) else if ok in counters then counters[ok].ttlSeconds else None
  {
    WindowKeysDistinct(apiKeyId, c);
  }

  // ---------------------------------------------------------------------
  // A burst of calls within one minute

  /** The counters after `n` successive calls with the same clock. */
  function After(counters: map<string, Counter>, apiKeyId: string, limits: Limits, c: Clock, n: nat): map<string, Counter>
  {
    if n == 0 then counters else Consume(After(counters, apiKeyId, limits, c, n - 1), apiKeyId, limits, c).counters
  }

  lemma {:induction false} AfterCounts(counters: map<string, Counter>, apiKeyId: string, limits: Limits, c: Clock, n: nat)
    ensures Count(After(counters, apiKeyId, limits, c, n), MinuteKey(apiKeyId, c)) == Count(counters, MinuteKey(apiKeyId, c)) + n
    ensures Count(After(counters, apiKeyId, limits, c, n), DayKey(apiKeyId, c)) == Count(counters, DayKey(apiKeyId, c)) + n
    ensures Count(After(counters, apiKeyId, limits, c, n), MonthKey(apiKeyId, c)) == Count(counters, MonthKey(apiKeyId, c)) + n
  {
    if n > 0 {
      var a := After(counters, apiKeyId, limits, c, n - 1);
      AfterCounts(counters, apiKeyId, limits, c, n - 1);
      ConsumeCounts(a, apiKeyId, limits, c);
      WindowKeysDistinct(apiKeyId, c);
      assert After(counters, apiKeyId, limits, c, n) == Consume(a, apiKeyId, limits, c).counters;
    }
  }

  predicate BurstStepOk(r: RateLimitResult, i: int, limit: int)
  {
    if i < limit then r.allowed && r.remaining == limit - (i + 1)
    else !r.allowed && r.window == Some(Minute) && r.limit == limit && r.remaining == 0
  }

  /**
   * In a fresh minute bucket with ceiling L, and with room for L more calls in
   * the day and month windows, the call made after k earlier calls (k < L) is
   * admitted with remaining L-k-1, and the call after L calls is rejected by
   * the minute window.
   */
  lemma {:induction false} FreshMinuteBurst(counters: map<string, Counter>, apiKeyId: string, limits: Limits, c: Clock, k: nat)
    requires MinuteKey(apiKeyId, c) !in counters
    requires k <= limits.perMinute
    requires Count(counters, DayKey(apiKeyId, c)) + limits.perMinute <= limits.perDay
    requires Count(counters, MonthKey(apiKeyId, c)) + limits.perMinute <= limits.perMonth
    ensures BurstStepOk(Consume(After(counters, apiKeyId, limits, c, k), apiKeyId, limits, c).result, k, limits.perMinute)
  {
    AfterCounts(counters, apiKeyId, limits, c, k);
    ConsumeCounts(After(counters, apiKeyId, limits, c, k), apiKeyId, limits, c);
    ConsumeDecides(After(counters, apiKeyId, limits, c, k), apiKeyId, limits, c);
  }

  /** Calls in one minute leave the counter of any other minute as it was. */
  lemma {:induction false} OtherMinuteUntouched(counters: map<string, Counter>, apiKeyId: string, limits: Limits,
                                                c: Clock, later: Clock, k: nat)
    requires MinuteBucket(c.nowMs) != MinuteBucket(later.nowMs)
    ensures Count(After(counters, apiKeyId, limits, c, k), MinuteKey(apiKeyId, later)) == Count(counters, MinuteKey(apiKeyId, later))
  {
    if k > 0 {
      OtherMinuteUntouched(counters, apiKeyId, limits, c, later, k - 1);
      MinuteKeysSeparate(apiKeyId, later, c);
      MinuteKeyNotDayOrMonth(apiKeyId, later, c);
      ConsumeFrame(After(counters, apiKeyId, limits, c, k - 1), apiKeyId, limits, c, MinuteKey(apiKeyId, later));
    }
  }
}
