# Content Analyzer SaaS — a verified model of its core

This project models, in Dafny, the logic of the content-analysis SaaS that
sits behind its HTTP routes. It covers these parts:

- **The public API gateway.** API keys have a fixed format (`ca_live_sk_` or `ca_test_sk_` followed by 64 lower-case hex digits). The model covers key generation and the tier limits table, cache-first key validation with its revoked-before-expired order, and revocation with cache eviction. It also covers the three-window (minute, day, month) rate limiter, the middleware pipeline (header, key, IP allowlist, rate limit, handler) and the success and error envelopes.
- **The public v1 routes.** `analyze` has its content-hash result cache, the per-key aggregates and the best-effort usage log. `batch-analyze` adds its item validation, quota check and per-batch aggregates. `usage` reports the key's limits, remaining usage and statistics.
- **The dashboard routes.** Key creation and revocation check ownership, and the API usage summary totals the caller's keys.
- **Entitlements.** Trials, the effective tier and status, per-tier limits, feature gating and the monthly analysis allowance are modelled. So are the internal analyze and enhance routes, with their calendar-month reset, 402-before-validation order and the charge on success. The enhance route's per-goal templates and its change summary are included, as are the trial routes.
- **Billing.** The model covers the product→tier and provider-status→status tables, and the "first active or trialing subscription, else the first" selection. It covers the provider sync route and the profile route's sync. It also covers both incoming billing webhooks: the Svix-signed one and the HMAC-signed one. Each is a pure transition over the user table. The HMAC-signed route is modelled with its tier rule corrected; the rule as written, and the failure it causes, are stated beside it (see "## Findings").
- **Outgoing webhooks.** This part covers the event table, signature generation and the receiver's tolerance-window check. It also covers the sender's retry loop: at most three attempts, waits of 4 s and then 8 s, one delivery row per attempt, and the endpoint's health bookkeeping. Endpoint selection for an event is included too.
- **Small text functions.** These are code-fence stripping and the token estimate, prompt assembly, and `truncate`.

## How the model is built

The database and the Redis cache are modelled as two classes, `Stores.Db` and `Stores.Redis`.

- Each table or key space is a `map` or `seq` field.
- Every route or store operation that writes is a method. Its `modifies` clause names exactly the fields it may change.
- Each such method is proved against a pure function of the old state. Its `ensures` says that the response and the new state equal that function's result.
- The properties of the route are then proved as lemmas about that function.

Query semantics follow the ORM:

- `findFirst` returns the first matching row in storage order.
- `updateMany` rewrites every matching row.
- A payload field that is absent drops its condition from a query, so the query matches every row.
- A payload field that is null matches only a null column.
- A payload field written to a nullable column leaves the column out of the update when absent, clears it when null and writes it when a string.

Cryptography, JSON serialisation, the clock, identifiers and the network are parameters of the model rather than part of it. These are:

- SHA-256, MD5 and HMAC;
- the Svix verifier and `timingSafeEqual`'s inputs;
- `JSON.parse` and `JSON.stringify`;
- random bytes and record ids;
- `Date.now` and its ISO and local-calendar renderings;
- the analysis model and the billing provider's replies.

Three behaviours of the gateway and the v1 analyze route are easy to miss, and the model has them as the code does:

- Every key-validation failure surfaces with the single code `INVALID_API_KEY`; only the message and status come from the validator (src/lib/api/middleware.ts:20).
- The day and month reset times are computed in local time, while the buckets use the UTC date (src/lib/api/rate-limiter.ts:48, 58). Both are clock inputs.
- A cache hit in the v1 analyze route does not touch the key aggregates. A thrown error logs a 500 row but does not increment `failedRequests` (src/app/api/v1/analyze/route.ts:45-63, 98-104).

Two behaviours of the code are modelled as written because they are plainly what the code does:

- The enhance route, given a valid body without `options`, fails on reading the goal. It answers 500 without charging usage (`Enhance.MissingOptionsFails`).
- In the Svix webhook, a missing `product_id` equals an unset product variable. A missing `customer_id` then filters nothing (`PolarWebhook.AbsentFieldsUpgradeFirstRow`).

## Model

| member | source | states |
|---|---|---|
| ApiErrors.Status | src/lib/api/errors.ts:13-22 | the three authentication failures are 401; rate limit 429, quota 402, invalid request 400, internal error 500 and IP refusal 403, each the only code with its status |
| Envelope.SuccessResponse | src/lib/api/response.ts:24-35 | status 200, the given headers or none, a body of `success: true` and the data, plus `usage` exactly when given |
| Envelope.ErrorObject | src/lib/api/response.ts:43-46 | code and message, then every extra field spread over them, so an extra `code` or `message` wins |
| Envelope.ErrorResponse | src/lib/api/response.ts:37-49 | the given status, no headers, and a body of `success: false` and the error object |
| Envelope.ErrorResponseReadsBack | src/lib/api/response.ts:37-49 | without overriding extras a client reads back the code's wire name and the message |
| Envelope.ExtraOverridesCode | src/lib/api/response.ts:45 | an extra `code` replaces the code argument in what the client reads |
| Strings.Take | src/lib/api/auth.ts:30 | a prefix of the string of length min(length, n) |
| Strings.NatToString | src/lib/api/rate-limiter.ts:18 | the decimal rendering of a natural number is a non-empty digit string |
| Strings.ParseNatToString | src/lib/api/rate-limiter.ts:18 | reading the decimal rendering back gives the number |
| Strings.NatToStringInjective | src/lib/api/rate-limiter.ts:18 | distinct numbers render differently |
| Strings.IntToString | src/lib/api/rate-limiter.ts:18 | an integer renders as digits, with a leading minus sign exactly for negatives |
| Strings.IntToStringInjective | src/lib/api/rate-limiter.ts:18 | distinct integers render differently |
| Strings.HexEncode | src/lib/api/auth.ts:20 | two lower-case hex digits per byte |
| Strings.HexRoundTrip | src/lib/api/auth.ts:20 | decoding the hex of bytes gives the bytes back |
| Strings.HexDecodeRoundTrip | src/lib/api/auth.ts:68 | every even-length lower-case hex string is the hex of its decoding |
| Strings.Trim | src/lib/ai/parsers.ts:115 | the trimmed string is a contiguous part of the input with no leading or trailing whitespace, and only whitespace is removed |
| Strings.FirstSegment | src/lib/api/middleware.ts:27 | everything before the first separator, or the whole string when it has none |
| Rows.FindFirst | src/app/api/internal/user/profile/route.ts:48-51 | the position of the first row satisfying the filter, or none when no row does |
| Rows.FindMany | src/app/api/internal/api-usage/route.ts:12-26 | every row satisfying the filter is kept, and only such rows |
| Rows.FindManyAppend | src/app/api/internal/api-usage/route.ts:12-26 | the matches keep table order: the matches of a concatenation are the matches of each part in turn, and a single row is kept exactly when it matches |
| Rows.UpdateWhere | src/app/api/webhooks/polar/route.ts:27-39 | the table keeps its length; each matching row is rewritten and every other row is unchanged |
| Rows.UpdateNoMatch | src/app/api/webhooks/polar/route.ts:27-39 | an update that matches no row changes nothing |
| Schema.TierFromName | src/lib/subscription.ts:54-64 | the tier column accepts exactly the six tier names, each read back as its tier |
| TextUtils.SliceTo | src/lib/utils.ts:25-27 | a prefix of the string; a negative end counts from the back |
| TextUtils.Truncate | src/lib/utils.ts:25-27 | a string within the length comes back unchanged; a longer one becomes a prefix of itself followed by "...", the prefix as long as `slice(0, length)` keeps (counted from the back for a negative length); for a non-negative length n the result starts with the first min(length, n) characters and is n+3 long when cut |
| InternalAuth.UserByClerkId | src/app/api/internal/analyze/route.ts:50-52 | the position of the user with that session id, or none when no user has it |
| InternalAuth.Authenticate | src/app/api/internal/analyze/route.ts:43-60 | succeeds iff the session id is present, non-empty and belongs to a user; a missing one is 401 and an unknown one 404 |
| InternalAuth.AuthenticatePlain | src/app/api/polar/sync/route.ts:31-43 | the same check answered in the billing routes' `{ error }` shape |
| RequestSchemas.FirstIssue | src/app/api/v1/analyze/route.ts:30-36 | no issue exactly when every check passes; a reported issue is the first failing check in field order |
| RequestSchemas.RequiredString | src/app/api/v1/analyze/route.ts:11 | a string field passes exactly when it is present, a string, and within the length bounds; a too-short string reports the schema's own minimum message at the field's path |
| RequestSchemas.OptionalString | src/app/api/v1/analyze/route.ts:12 | an optional string passes exactly when it is absent or a string |
| RequestSchemas.OptionalBool | src/app/api/v1/analyze/route.ts:14-16 | an optional boolean passes exactly when it is absent or a boolean |
| RequestSchemas.ObjectIssue | src/app/api/v1/analyze/route.ts:10 | an object schema passes exactly an object value |
| ApiKeys.RateLimitsForTier | src/lib/api/auth.ts:58-65 | STARTER 10/100/3000, GROWTH 60/1000/30000, ENTERPRISE 300/10000/300000 requests per minute/day/month |
| ApiKeys.TierLimitsOrdered | src/lib/api/auth.ts:59-63 | every ceiling is positive and a higher tier allows strictly more in each window |
| ApiKeys.GeneratedKeyWellFormed | src/lib/api/auth.ts:19-23 | every generated key passes the validator's format check, its environment segment is `live` exactly for production keys, and its tail is the hex of the random bytes |
| ApiKeys.WellFormedKeyIsGenerated | src/lib/api/auth.ts:68 | conversely, every string the format check accepts is the key generated from some 32 random bytes and an environment |
| ApiKeys.LastFour | src/lib/api/auth.ts:31 | the last four characters of the key, or the whole string when shorter |
| ApiKeys.NewKeyRecord | src/lib/api/auth.ts:30-48 | the inserted row stores the hash, never the key; its prefix is the first 20 characters, its limits are the tier's, and it starts active, unrevoked, without expiry or allowlist |
| ApiKeys.GenerateApiKey | src/lib/api/auth.ts:13-56 | a fresh hash inserts exactly that row and returns id, full key, prefix and last four; a hash already in the table fails and leaves the table unchanged; with an id not yet in the table, a valid table stays valid |
| ApiKeys.InsertPreservesTable | src/lib/api/auth.ts:35-48 | inserting a row under its own hash, with a new hash and a new id, keeps the table keyed by hash with unique ids |
| ApiKeys.GeneratedKeyParts | src/lib/api/auth.ts:30-31 | a generated key is 75 characters; the returned prefix and last four are its first 20 and last 4 characters, and the prefix covers `ca_<env>_sk_` |
| ApiKeys.Lookup | src/lib/api/auth.ts:74-86 | the cache is consulted first and a cached record is returned as cached; while the cache is coherent with the table, a record is found exactly when the table has a row for the hash, and it is that row apart from its aggregates |
| ApiKeys.Decide | src/lib/api/auth.ts:91-99 | a found record is valid iff it is neither revoked (inactive or revokedAt set) nor expired; revoked is reported before expired, each with 401 |
| ApiKeys.ValidateApiKey | src/lib/api/auth.ts:67-100 | the verdict and the cache afterwards are those of the validation specification |
| ApiKeys.MalformedRejectedUntouched | src/lib/api/auth.ts:68-70 | a malformed token is refused with "Invalid API key format" and 401 whatever the table, cache and hash, and nothing is written |
| ApiKeys.ValidateCacheWrites | src/lib/api/auth.ts:78-89 | the only cache write is the fill with TTL 300 after a miss and a table hit; a miss on both is "Invalid API key" |
| ApiKeys.ValidIff | src/lib/api/auth.ts:67-100 | valid with record k iff the token is well formed and the cache-first lookup finds k neither revoked nor expired |
| ApiKeys.ValidatePreservesCoherence | src/lib/api/auth.ts:88 | validation keeps every cached record a copy of its table row, apart from the usage aggregates |
| ApiKeys.RevokedInTableNeverAdmitted | src/lib/api/auth.ts:91-93 | under a coherent cache, a key revoked in the table is refused as revoked, whichever copy is read |
| ApiKeys.AggregateUpdatePreservesCoherence | src/app/api/v1/analyze/route.ts:72-81 | bumping a row's usage aggregates, which the handlers do without touching the cache, keeps the cache coherent |
| ApiKeys.GenerateThenValidate | src/lib/api/auth.ts:35-48 | a fresh insert keeps the cache coherent, and the new key then validates to its own row |
| ApiKeys.RevokedRecord | src/lib/api/auth.ts:103-110 | the revoked row is inactive with revokedAt now; an absent reason keeps the stored reason, null clears it, a string replaces it; no other column changes |
| ApiKeys.RevokeApiKey | src/lib/api/auth.ts:102-116 | a reason that is not absent, null or a string fails with nothing written, and so does an unknown id; otherwise the row with that id becomes its revoked record and its cache entry is evicted |
| ApiKeys.RevokePreservesTable | src/lib/api/auth.ts:103-110 | revocation keeps the table keyed by hash with unique ids |
| ApiKeys.RevokePreservesCoherence | src/lib/api/auth.ts:112-113 | revocation followed by eviction keeps the cache coherent |
| ApiKeys.RevokeThenReject | src/lib/api/auth.ts:112-113 | after revocation, the next validation of that key misses the cache, reads the table and is refused as revoked |
| ApiKeys.CacheKeyInjective | src/lib/api/auth.ts:75 | distinct key hashes have distinct cache entries, so a cached record is only ever read back for its own hash |
| KeyUsage.UpdateKeyById | src/app/api/v1/analyze/route.ts:72-73 | an update by id rewrites exactly the rows with that id and keeps the table's hashes |
| KeyUsage.RecordAnalyzeSuccess | src/app/api/v1/analyze/route.ts:74-80 | one analysed request raises total, successful, daily and monthly counts by one, leaves failed alone and sets lastUsedAt |
| KeyUsage.RecordBatch | src/app/api/v1/batch-analyze/route.ts:57-67 | a batch of n items with s successes adds n to total, daily and monthly, s to successful and n-s to failed |
| KeyUsage.UpdateByIdIsPointUpdate | src/app/api/v1/analyze/route.ts:72-73 | under unique ids, updating by id is a point update of the one row with that id |
| KeyUsage.AggregateUpdateKeepsInvariants | src/lib/api/auth.ts:88 | an update that keeps a row's identity keeps the table indexed and unique and the key cache coherent |
| RateLimiter.MinuteReset | src/lib/api/rate-limiter.ts:38 | the minute window's reset time is a whole minute, no earlier than now and less than a minute after it |
| RateLimiter.WindowKeysDistinct | src/lib/api/rate-limiter.ts:18-20 | the minute, day and month counters of one call are three different keys |
| RateLimiter.MinuteKeyNotDayOrMonth | src/lib/api/rate-limiter.ts:18-20 | a minute counter never coincides with a day or month counter, whatever the two clocks |
| RateLimiter.MinuteKeysSeparate | src/lib/api/rate-limiter.ts:18 | calls in different minute buckets count on different minute keys |
| RateLimiter.Incr | src/lib/api/rate-limiter.ts:22-26 | an increment starts a missing counter from 0, raises it by one and keeps an existing expiry |
| RateLimiter.ExpireIfFirst | src/lib/api/rate-limiter.ts:29-31 | an expiry is set only when the increment returned 1, and the count is unchanged |
| RateLimiter.Decide | src/lib/api/rate-limiter.ts:33-70 | admitted iff all three counts are within their ceilings; otherwise the first exceeded window (minute, day, month) decides limit, reset time and type with remaining 0; admitted results carry non-negative remainders for all three windows |
| RateLimiter.CheckRateLimit | src/lib/api/rate-limiter.ts:13-71 | the returned result and the counters afterwards are exactly those of one call of the limiter |
| RateLimiter.ConsumeCounts | src/lib/api/rate-limiter.ts:22-26 | every call, admitted or rejected, raises each of its three counters by exactly one |
| RateLimiter.ConsumeDecides | src/lib/api/rate-limiter.ts:22-70 | the decision is taken on the three raised counts |
| RateLimiter.ConsumeFrame | src/lib/api/rate-limiter.ts:22-31 | no Redis key other than the call's three counters is created or changed |
| RateLimiter.ConsumeExpiries | src/lib/api/rate-limiter.ts:28-31 | the expiry (60 s, 1 day, 30 days) is set exactly on counters created by the call; others keep their expiry |
| RateLimiter.AfterCounts | src/lib/api/rate-limiter.ts:22-26 | after n calls with the same clock every counter of that clock is n higher |
| RateLimiter.FreshMinuteBurst | src/lib/api/rate-limiter.ts:33-70 | in a fresh minute with ceiling L and room in the other windows, call k+1 (k < L) is admitted with L-k-1 remaining and call L+1 is refused by the minute window |
| RateLimiter.OtherMinuteUntouched | src/lib/api/rate-limiter.ts:18-26 | calls in one minute leave the counter of every other minute as it was |
| Gateway.BearerToken | src/lib/api/middleware.ts:10-16 | a token exists iff the Authorization header is present and starts with "Bearer ", and the header is that prefix followed by the token |
| Gateway.ClientIp | src/lib/api/middleware.ts:27-28 | the caller address is never empty: the first X-Forwarded-For segment when non-empty, else a non-empty X-Real-IP, else "unknown" |
| Gateway.WithApiAuth | src/lib/api/middleware.ts:6-55 | the response or admission and the cache and counters afterwards are those of the gate specification |
| Gateway.BadHeaderTouchesNothing | src/lib/api/middleware.ts:12-14 | a missing or non-Bearer header gets 401 INVALID_API_KEY and leaves cache and counters untouched |
| Gateway.ValidationFailureReported | src/lib/api/middleware.ts:19-21 | a validation failure is reported as INVALID_API_KEY with the validator's message and status, and consumes no counter |
| Gateway.CountersChangeOnlyPastChecks | src/lib/api/middleware.ts:26-39 | the counters change exactly when the header, the key and the IP allowlist all pass |
| Gateway.AdmitIff | src/lib/api/middleware.ts:10-54 | admitted with record k and limiter result rl iff the header, validation, allowlist and limiter all pass and yield k and rl |
| Gateway.RateLimitRejection | src/lib/api/middleware.ts:41-52 | a limiter refusal answers 429 RATE_LIMIT_EXCEEDED with the window's ceiling, remaining 0 and the ISO reset time |
| Gateway.RevokedKeyNeverAdmitted | src/lib/api/middleware.ts:17-21 | under a coherent cache a key revoked in the table is never admitted and consumes no counter |
| Gateway.AdmittedWithinLimits | src/lib/api/middleware.ts:41-54 | an admitted request carries an allowed limiter result with both remainders present and non-negative |
| V1Analyze.OptionsIssue | src/app/api/v1/analyze/route.ts:13-18 | options pass iff absent, or an object whose three flags are absent or booleans and whose keyword focus is absent or a string |
| V1Analyze.RequestIssue | src/app/api/v1/analyze/route.ts:10-19 | a body has no issue iff it is an object meeting every field rule; the first issue is checked content, then title, then options |
| V1Analyze.ParseAnalyzeRequest | src/app/api/v1/analyze/route.ts:28-39 | parsing fails exactly when the schema finds an issue, and then with that issue |
| V1Analyze.AcceptIff | src/app/api/v1/analyze/route.ts:10-19 | a body is accepted iff it meets every field's type and length rule, and the parsed content is the body's content |
| V1Analyze.ShortContentReportedFirst | src/app/api/v1/analyze/route.ts:11 | a string content under 100 characters is reported with "Content must be at least 100 characters" at path `content`, whatever else the body holds |
| V1Analyze.OptionsDefaultOn | src/app/api/v1/analyze/route.ts:14-16 | an options object without flags turns on readability, SEO and keywords, and the prompt then asks for all three |
| V1Analyze.LogUsage | src/app/api/v1/analyze/route.ts:108-124 | the usage log afterwards is the log with the entry appended, or unchanged when the insert failed |
| V1Analyze.HandleAnalyze | src/app/api/v1/analyze/route.ts:22-105 | the response, key table, usage log and result cache afterwards are those of the handler specification |
| V1Analyze.InvalidBodyWritesNothing | src/app/api/v1/analyze/route.ts:30-37 | a rejected body is answered 400 INVALID_REQUEST with the first issue's message and dotted path, and nothing is written or logged |
| V1Analyze.CacheHit | src/app/api/v1/analyze/route.ts:41-63 | a hit serves the stored analysis with the limiter's remainders and `X-Cache: HIT`, logs one 200 entry with the stored word count, writes nothing else and never consults the analyzer |
| V1Analyze.CacheMissAnswer | src/app/api/v1/analyze/route.ts:88-97 | a fresh analysis answers 200 with the result, both remainders lowered by one and `X-RateLimit-Remaining` one below the limiter's |
| V1Analyze.CacheMissEffects | src/app/api/v1/analyze/route.ts:65-86 | a fresh analysis is cached for 86400 s, bumps the key's total, successful, daily and monthly counts and logs a 200 entry with tokens and words |
| V1Analyze.ServeKeys | src/app/api/v1/analyze/route.ts:41-104 | the key table is untouched or gets exactly the aggregate bump, which comes only with the fresh-analysis answer; a 500 leaves it untouched |
| V1Analyze.OutcomeShapes | src/app/api/v1/analyze/route.ts:26-104 | every answer is 200, 400 or the generic 500 "Analysis failed" carrying the request id, and a 500 leaves the key table alone |
| V1Analyze.KeysChangeOnlyOnFreshAnalysis | src/app/api/v1/analyze/route.ts:72-97 | the key table changes only together with a 200 carrying the request id and rate-limit headers |
| V1Analyze.FailedCountUnchanged | src/app/api/v1/analyze/route.ts:72-81 | no row's failed-request count ever moves, including on a 500 |
| V1Analyze.LoggingNeverChangesAnswer | src/app/api/v1/analyze/route.ts:123 | whether the log insert succeeds never changes the answer, the key table or the cache; a failed insert logs nothing |
| V1Analyze.AnalyzeKeepsKeyInvariants | src/app/api/v1/analyze/route.ts:72-81 | the handler keeps the key table indexed by hash with unique ids and the API-key cache coherent |
| V1Analyze.CacheIgnoresOptions | src/app/api/v1/analyze/route.ts:42-43 | the result cache is keyed by the content alone: two valid requests with the same content get the same cached answer whatever their title and options |
| V1Analyze.LastSlotHeader | src/app/api/v1/analyze/route.ts:95 | when the request took the minute's last slot, a fresh analysis reports `X-RateLimit-Remaining: -1` |
| V1Analyze.AnalyzeRoute | src/app/api/v1/analyze/route.ts:21-106 | a gateway refusal is the answer and writes nothing beyond the gateway's cache and counters; an admitted request is then handled by the handler specification |
| V1Batch.ItemIssue | src/app/api/v1/batch-analyze/route.ts:10-14 | an item passes iff it is an object with a string id, a string content of 100 to 50000 characters and an optional string title |
| V1Batch.ItemsIssueFrom | src/app/api/v1/batch-analyze/route.ts:10-14 | no issue among the items from a position on iff every one of them is well formed |
| V1Batch.ItemsIssue | src/app/api/v1/batch-analyze/route.ts:10-14 | the items pass iff they form an array of 1 to 10 entries, each well formed |
| V1Batch.BatchOptionsIssue | src/app/api/v1/batch-analyze/route.ts:15-19 | options pass iff absent or an object whose three flags are absent or booleans |
| V1Batch.BatchIssue | src/app/api/v1/batch-analyze/route.ts:9-20 | a body has no issue iff it meets the whole batch schema |
| V1Batch.ParsedBatchOptions | src/app/api/v1/batch-analyze/route.ts:15-19 | the batch schema strips unknown keys, so a batch never passes a focus keyword on |
| V1Batch.ParseBatchRequest | src/app/api/v1/batch-analyze/route.ts:28-34 | parsing succeeds iff the body meets the schema, fails with the first issue otherwise, and keeps every item's id, content and title in order |
| V1Batch.Outcomes | src/app/api/v1/batch-analyze/route.ts:41-43 | one settled outcome per item, in item order, each the analysis of that item with the shared options |
| V1Batch.FormatResult | src/app/api/v1/batch-analyze/route.ts:45-50 | an entry carries the item id, `success` or `failed`, and exactly one of a non-null analysis and a non-null error |
| V1Batch.FormatResults | src/app/api/v1/batch-analyze/route.ts:45-50 | one entry per item, each formatted from that item's outcome |
| V1Batch.Successful | src/app/api/v1/batch-analyze/route.ts:52 | the success count never exceeds the number of items |
| V1Batch.SuccessfulFrom | src/app/api/v1/batch-analyze/route.ts:52 | the success count of a suffix is the number of fulfilled positions in it |
| V1Batch.SuccessfulCountsFulfilled | src/app/api/v1/batch-analyze/route.ts:52 | the success count is the size of the set of fulfilled positions |
| V1Batch.AllFulfilledIff | src/app/api/v1/batch-analyze/route.ts:52 | every item counts as successful exactly when every analysis was fulfilled |
| V1Batch.TotalsAdditive | src/app/api/v1/batch-analyze/route.ts:52-55 | splitting a batch splits both the success count and the token sum |
| V1Batch.TokensOnlyFromFulfilled | src/app/api/v1/batch-analyze/route.ts:53-55 | when every analysis failed, the success count and the token sum are both 0 |
| V1Batch.HandleBatch | src/app/api/v1/batch-analyze/route.ts:23-85 | the response and key table afterwards are those of the batch handler specification |
| V1Batch.BatchRoute | src/app/api/v1/batch-analyze/route.ts:22-86 | a gateway refusal is the answer and writes no key row; an admitted request is then handled by the batch specification |
| V1Batch.InvalidBatchWritesNothing | src/app/api/v1/batch-analyze/route.ts:30-32 | a rejected body is answered 400 INVALID_REQUEST with the first issue's message and no field, and nothing is written |
| V1Batch.QuotaCheckedFirst | src/app/api/v1/batch-analyze/route.ts:37-39 | more items than the day has left is answered 402 QUOTA_EXCEEDED before any analysis or write |
| V1Batch.BatchReport | src/app/api/v1/batch-analyze/route.ts:69-81 | an accepted batch within quota answers 200 with the report and the request id, with both remainders lowered by the item count and the daily one still non-negative |
| V1Batch.ReportCounts | src/app/api/v1/batch-analyze/route.ts:69-74 | successful + failed = total_items = the item count, and each result, in item order, has its item's id and is `success` iff its analysis was fulfilled |
| V1Batch.BatchAggregates | src/app/api/v1/batch-analyze/route.ts:57-67 | with n items and s successes the key's row gains n requests, s successes, n-s failures and n daily and monthly uses |
| V1Batch.FailuresWriteNothing | src/app/api/v1/batch-analyze/route.ts:82-84 | an unreadable body or a failing key update answers 500 "Batch analysis failed" with the request id and writes nothing |
| V1Usage.LogsOf | src/app/api/v1/usage/route.ts:8-9 | the aggregated rows are exactly the log rows of that key: each is that key's, and every row of that key is among them |
| V1Usage.SumTokens | src/app/api/v1/usage/route.ts:12 | the SQL sum is null exactly when no row has a token count |
| V1Usage.AggregateOf | src/app/api/v1/usage/route.ts:8-13 | the count is the number of the key's rows, and the average is null exactly when there are none |
| V1Usage.Round | src/app/api/v1/usage/route.ts:36 | rounding gives the integer nearest the value, halves rounding up |
| V1Usage.UsageRoute | src/app/api/v1/usage/route.ts:6-41 | a gateway refusal is the answer; otherwise the report of the validated record and its log aggregate, with no write beyond the gateway's |
| V1Usage.ReportFigures | src/app/api/v1/usage/route.ts:15-39 | the report echoes the key's limits and request counts, each remainder plus its usage is the limit, and missing aggregates read as 0 |
| V1Usage.LogAppendCounts | src/app/api/v1/usage/route.ts:8-13 | a new log row counts towards exactly its own key's statistics: one more row and its tokens added to the sum |
| V1Usage.LogsOfAppend | src/app/api/v1/usage/route.ts:9 | filtering an extended log is filtering the old log, plus the new row when it is that key's |
| V1Usage.SumTokensAppend | src/app/api/v1/usage/route.ts:12 | the token sum, read with 0 for null, is additive over concatenation |
| Parsers.DropLeading | src/lib/ai/parsers.ts:119-121 | removing the opening fence keeps a suffix of the text: exactly the fence is dropped, plus one more character exactly when the character after the fence is a newline |
| Parsers.DropTrailing | src/lib/ai/parsers.ts:119-121 | removing the closing fence keeps a prefix; a text ending in a fence loses exactly the 3 fence characters, plus one more exactly when the character before the fence is a newline; any other text is unchanged |
| Parsers.Clean | src/lib/ai/parsers.ts:115-122 | an unfenced reply is parsed as the trimmed text; a fenced one, after trimming, loses its opening "```json" (else "```") fence and its closing fence as the two drops describe |
| Parsers.CleanRoundTrip | src/lib/ai/parsers.ts:115-122 | a reply that is a fenced block, with or without the `json` tag, is parsed as exactly the block's body |
| Parsers.CleanFenced | src/lib/ai/parsers.ts:118-122 | a fenced reply keeps what lies between its fences: what is parsed is the text after the opening fence (and its newline), shortened by 3 or 4 characters when it also ends with a fence, and unchanged otherwise |
| Parsers.ParseAnalysisResponse | src/lib/ai/parsers.ts:114-131 | the reply is accepted iff the cleaned text parses as JSON, and then as that value |
| Parsers.EstimateTokens | src/lib/ai/parsers.ts:133-135 | the estimate is the length divided by four, rounded up |
| Parsers.EstimateTokensMonotone | src/lib/ai/parsers.ts:133-135 | a longer text never gets a smaller estimate |
| Prompts.BuildAnalysisPrompt | src/lib/ai/prompts.ts:56-90 | the prompt opens with the analysis instruction and closes with the JSON-only request |
| Prompts.TitleSectionIff | src/lib/ai/prompts.ts:63-65 | a title section follows the opening exactly when the title is non-empty |
| Prompts.ContentPlaced | src/lib/ai/prompts.ts:67 | "Content:" and the content follow right after the title section |
| Prompts.FocusSectionIff | src/lib/ai/prompts.ts:69-71 | after the content and its blank line, the focus line appears exactly when a non-empty focus keyword is given |
| Prompts.AnalysisLinesOrder | src/lib/ai/prompts.ts:73-85 | each analysis line appears unless its flag is explicitly false, in the order readability, SEO, keywords; with no options all three appear |
| KeyRoutes.ApiKeyTierFromName | src/app/api/internal/api-keys/create/route.ts:9 | a tier is read exactly from STARTER, GROWTH or ENTERPRISE, and reads back as that name |
| KeyRoutes.EnvironmentFromName | src/app/api/internal/api-keys/create/route.ts:10 | an environment is read exactly from PRODUCTION or TESTING, and is production exactly for PRODUCTION |
| KeyRoutes.CreateIssue | src/app/api/internal/api-keys/create/route.ts:7-11 | a body has no issue iff its name is a string of 1 to 100 characters and its tier and environment are listed names; name is checked first, then tier, then environment |
| KeyRoutes.ParseCreateRequest | src/app/api/internal/api-keys/create/route.ts:20-26 | parsing succeeds iff the body is well formed, fails with the first issue otherwise, and keeps the given name, tier and environment |
| KeyRoutes.CreateKeyRoute | src/app/api/internal/api-keys/create/route.ts:13-30 | 401 and 404 come before the body is read; a rejected body is 400 with the first issue's message and creates nothing; otherwise the generated key, plaintext included, is returned and its row inserted for the caller; with a record id not yet in the table, a valid table stays valid |
| KeyRoutes.NameCheckedFirst | src/app/api/internal/api-keys/create/route.ts:8 | an over-long name is reported with the library's wording before tier and environment are looked at |
| KeyRoutes.CreatedKeyValidates | src/app/api/internal/api-keys/create/route.ts:27 | a key the route returns passes the key-format check, with `live` exactly for production and `test` otherwise |
| KeyRoutes.RevokeKeyRoute | src/app/api/internal/api-keys/revoke/route.ts:6-21 | a body that does not parse or is null throws (500, no write); an owned key is revoked and evicted from the cache, its reason kept, cleared or replaced as `reason` is absent, null or a string, while a reason of any other type throws with no write; an id the caller does not own is 404 with no write; an absent id matches the caller's first key and then throws; a non-string id throws |
| KeyRoutes.OwnershipIsPerUser | src/app/api/internal/api-keys/revoke/route.ts:15 | a key owned by someone else is never found for this caller |
| ApiUsage.SuccessRate | src/app/api/internal/api-usage/route.ts:47 | 0 when no request was made, otherwise a percentage between 0 and 100, and 100 when every request succeeded |
| ApiUsage.SumByRemove | src/app/api/internal/api-usage/route.ts:42-43 | removing one row from the listing takes exactly its share off the sum |
| ApiUsage.RemoveAt | src/app/api/internal/api-usage/route.ts:42-43 | removing a position removes exactly one occurrence of its element |
| ApiUsage.SumByPermutation | src/app/api/internal/api-usage/route.ts:42-43 | the sums over key rows do not depend on the order the rows come back in |
| ApiUsage.DistinctOnce | src/app/api/internal/api-usage/route.ts:12-13 | in a listing without repeats every row occurs once |
| ApiUsage.StatsOrderIndependent | src/app/api/internal/api-usage/route.ts:42-49 | two listings of the same keys, in any order, give the same totals, success rate and active count |
| ApiUsage.ActiveKeysBounded | src/app/api/internal/api-usage/route.ts:48 | the active-key count lies between zero and the number of keys |
| ApiUsage.SuccessWithinTotal | src/app/api/internal/api-usage/route.ts:42-47 | when each key's successes are within its total, so are the sums, and the rate is a percentage |
| ApiUsage.LogsOfUser | src/app/api/internal/api-usage/route.ts:28-29 | the caller's log rows, each of them and only them |
| ApiUsage.InsertByTime | src/app/api/internal/api-usage/route.ts:30 | inserting into a newest-first list keeps it newest first and adds exactly that row |
| ApiUsage.SortByTimeDesc | src/app/api/internal/api-usage/route.ts:30 | the sorted rows are newest first and a permutation of the input |
| ApiUsage.PrefixOf | src/app/api/internal/api-usage/route.ts:31 | a prefix of a newest-first list is newest first and drawn from it; what is left out is in the rest |
| ApiUsage.RecentLogsShape | src/app/api/internal/api-usage/route.ts:28-40 | at most twenty rows, newest first, all of them the caller's own |
| ApiUsage.RecentLogsComplete | src/app/api/internal/api-usage/route.ts:31 | when the caller has at most twenty rows, every one of them is listed |
| ApiUsage.RecentLogsNewest | src/app/api/internal/api-usage/route.ts:30-31 | when a row of the caller's is left out, twenty are listed and it is no newer than the oldest listed |
| ApiUsage.ApiUsageRoute | src/app/api/internal/api-usage/route.ts:5-59 | reads only: a failed authentication is its error; otherwise the caller's keys, recent logs (id, endpoint, status, time, tokens, timestamp) and their statistics |
| Subscription.GetTierLimits | src/lib/subscription.ts:76-93 | the API plans carry no web analyses, only API_ENTERPRISE has unlimited (-1) API calls, and only PRO and BUSINESS name a team size |
| Subscription.EffectiveTier | src/lib/subscription.ts:54-64 | a running trial reads as PRO, anything else as the stored tier |
| Subscription.EffectiveStatus | src/lib/subscription.ts:66-74 | a running trial reads as TRIALING, anything else as the stored status |
| Subscription.CanAccessFeature | src/lib/subscription.ts:95-129 | a feature is open only to a user in good standing, and then exactly when the effective tier grants it |
| Subscription.RemainingAnalyses | src/lib/subscription.ts:131-140 | never negative; 0 exactly when the month's usage has reached the effective tier's allowance, otherwise usage plus remainder is the allowance |
| Subscription.CanPerformAnalysis | src/lib/subscription.ts:142-157 | an analysis is allowed only to a user in good standing |
| Subscription.CanPerformIffRemaining | src/lib/subscription.ts:131-157 | an analysis is allowed exactly when the user is in good standing and has some left |
| Subscription.ApiTiersCannotAnalyse | src/lib/subscription.ts:21-34 | outside a trial, the API plans can perform no web analysis and have none remaining |
| Subscription.FeaturesGrowWithTier | src/lib/subscription.ts:104-128 | FREE, PRO and BUSINESS open successively more features, and BUSINESS opens all of them |
| Subscription.StartTrial | src/lib/subscription.ts:159-175 | the user with that id gets status TRIALING, tier PRO and a trial ending `days` later; an unknown id is reported and changes nothing |
| Subscription.EndTrial | src/lib/subscription.ts:177-189 | the user with that id returns to FREE and INACTIVE; an unknown id is reported and changes nothing |
| Subscription.TrialWindow | src/lib/subscription.ts:45-52 | a started trial is running, with PRO benefits, from its start until just before its end, and not after |
| Subscription.LapsedTrialKeepsAccess | src/lib/subscription.ts:95-129 | until the sweep runs, a trial past its end still reads as PRO and TRIALING from the stored columns and keeps PRO features |
| Subscription.EndedTrialOpensNothing | src/lib/subscription.ts:177-189 | an ended trial opens no feature and allows no analysis |
| Subscription.ExpireTrials | src/lib/subscription.ts:191-205 | the sweep keeps every row in place |
| Subscription.LapsedIds | src/lib/subscription.ts:192-199 | under unique ids, a row's id is among the query's results exactly when its trial has lapsed |
| Subscription.CheckAndExpireTrials | src/lib/subscription.ts:191-205 | ending the trials of the query's users one by one leaves the table as the sweep specification says |
| Subscription.SweepLeavesNoLapsedTrial | src/lib/subscription.ts:191-205 | after the sweep no lapsed trial is left, and sweeping again changes nothing |
| Subscription.RunningTrialSurvivesSweep | src/lib/subscription.ts:192-199 | a row whose trial has not lapsed is left exactly as it was |
| Subscription.LapsedTrialEnded | src/lib/subscription.ts:191-205 | a row whose trial has lapsed comes out of the sweep as a free, inactive row with no trial dates |
| Subscription.FormatTier | src/lib/subscription.ts:207-224 | every tier has a non-empty display name |
| Subscription.FormatStatus | src/lib/subscription.ts:226-241 | every status has a non-empty display name |
| Subscription.DisplayNamesDistinct | src/lib/subscription.ts:207-241 | distinct tiers and distinct statuses display differently |
| Quota.MonthlyLimit | src/app/api/internal/analyze/route.ts:32-39 | every tier's monthly allowance is positive (FREE 5, PRO 50, BUSINESS 200, API_STARTER 100, API_GROWTH 500, API_ENTERPRISE 1000) |
| Quota.CheckQuota | src/app/api/internal/analyze/route.ts:43-87 | the gate's verdict and the user table afterwards are those of the quota-gate specification |
| Quota.GateAdmitsUnderLimit | src/app/api/internal/analyze/route.ts:63-87 | an admitted caller is under its tier's limit, and its count is 0 when the month rolled over and the stored count otherwise |
| Quota.NewMonthAdmits | src/app/api/internal/analyze/route.ts:66-74 | in a new calendar month every signed-in user is admitted with count 0, whatever was used before |
| Quota.NoResetWithoutDate | src/app/api/internal/analyze/route.ts:67 | a user never reset is never reset, and is refused exactly when the stored count has reached the limit |
| Quota.RefusalWritesOnlyReset | src/app/api/internal/analyze/route.ts:76-87 | a signed-in caller refused by the gate gets 402, and since a reset would have admitted it, nothing was written |
| Quota.ChargeAfterGate | src/app/api/internal/analyze/route.ts:134-140 | the charge after an admission adds one to the caller's two counters, stays within the limit and leaves every other row alone |
| InternalAnalyze.ToneIssue | src/app/api/internal/analyze/route.ts:27 | a tone passes iff absent or one of professional, casual, academic and persuasive |
| InternalAnalyze.OptionsIssue | src/app/api/internal/analyze/route.ts:15-28 | options pass iff an object whose nine flags are absent or booleans, whose focus and source context are absent or strings, and whose tone is valid |
| InternalAnalyze.RequestIssue | src/app/api/internal/analyze/route.ts:12-29 | a body has no issue iff it meets the whole schema |
| InternalAnalyze.ParseRequest | src/app/api/internal/analyze/route.ts:89-105 | parsing succeeds iff the body is well formed, fails with the first issue otherwise, and keeps the given content of 100 to 50000 characters |
| InternalAnalyze.FlagDefaults | src/app/api/internal/analyze/route.ts:16-24 | a flag left out of the options is on, and a given one is taken as given |
| InternalAnalyze.ShortContentMessage | src/app/api/internal/analyze/route.ts:13 | short string content is reported with "Content must be at least 100 characters" on `content` |
| InternalAnalyze.AnalyzeRoute | src/app/api/internal/analyze/route.ts:41-167 | the response, users and saved analyses afterwards are those of the route specification |
| InternalAnalyze.ServedIsCharged | src/app/api/internal/analyze/route.ts:111-153 | only a served request saves one analysis for the caller and adds one to its two counters; no other user changes and the usage block counts the request itself |
| InternalAnalyze.RefusalsCostNothing | src/app/api/internal/analyze/route.ts:154-166 | every refusal saves nothing and leaves the users as the gate left them |
| InternalAnalyze.QuotaBeforeBody | src/app/api/internal/analyze/route.ts:76-90 | the allowance is checked before the body: an over-quota caller gets 402 whatever it sent |
| InternalAnalyze.InvalidBodyIsReported | src/app/api/internal/analyze/route.ts:92-103 | an invalid body is 400 naming the first bad field, and the analyzer is not consulted |
| Enhance.DefaultedEnum | src/app/api/internal/enhance/route.ts:10-11 | an enum with a default passes iff absent or one of its names |
| Enhance.OptionsIssue | src/app/api/internal/enhance/route.ts:9-12 | options pass iff an object whose tone and goal are each absent or listed |
| Enhance.RequestIssue | src/app/api/internal/enhance/route.ts:6-13 | a body has no issue iff it meets the whole schema |
| Enhance.ParseRequest | src/app/api/internal/enhance/route.ts:73-88 | parsing succeeds iff the body is well formed, fails with the first issue otherwise, and keeps the given content of at least 50 characters |
| Enhance.GoalOf | src/app/api/internal/enhance/route.ts:218 | the `improve` name selects the improve template |
| Enhance.Outro | src/app/api/internal/enhance/route.ts:167-213 | every template has text after the content |
| Enhance.EnhanceContent | src/app/api/internal/enhance/route.ts:163-219 | the result is the goal's lead-in, the content verbatim and the goal's closing text, in that order |
| Enhance.UnknownGoalImproves | src/app/api/internal/enhance/route.ts:218 | a goal outside the table gets the improve template |
| Enhance.EnhancedIsLonger | src/app/api/internal/enhance/route.ts:167-213 | every template makes the text strictly longer than the content |
| Enhance.ChangesSummary | src/app/api/internal/enhance/route.ts:221-240 | the summary always ends with the applied-changes entry, and has the length entry in front exactly when the text grew by more than a tenth |
| Enhance.EnhanceRoute | src/app/api/internal/enhance/route.ts:25-161 | the response and users afterwards are those of the route specification |
| Enhance.MissingOptionsFails | src/app/api/internal/enhance/route.ts:104 | a valid body without options fails when the prompt reads the goal: 500, and only the gate's reset can have been written |
| Enhance.ServedPath | src/app/api/internal/enhance/route.ts:122-147 | only an admitted, well-formed request with options is served, with the goal's template and the caller charged |
| Enhance.ServedIsCharged | src/app/api/internal/enhance/route.ts:124-131 | a served enhancement adds one to the caller's two counters and leaves every other user alone |
| Enhance.QuotaBeforeBody | src/app/api/internal/enhance/route.ts:60-74 | an over-quota caller gets the same answer whatever it sent |
| Enhance.DefaultGoal | src/app/api/internal/enhance/route.ts:10-11 | options without a tone or goal default to professional and improve |
| Trial.StartTrialRoute | src/app/api/polar/trial/route.ts:6-54 | 401/404 write nothing; a user that is not FREE or already trialing gets 400 "Trial not available" with nothing written; otherwise the caller's row starts a 14-day trial and the answer carries the refetched tier, status and end date |
| Trial.TrialDaysRemaining | src/app/api/polar/trial/route.ts:72-76 | never negative; in a trial the whole days left, rounded up (at least 1); outside a trial 0 |
| Trial.InTrialFlag | src/app/api/polar/trial/route.ts:73 | the flag is true exactly while the route's trial test holds, and null exactly for a trialing user with no end date; otherwise false |
| Trial.TrialStatus | src/app/api/polar/trial/route.ts:56-94 | a failed sign-in is its error; otherwise 200 with the caller's eligibility, trial flag, days left and end date |
| Trial.SameTrialTest | src/app/api/polar/trial/route.ts:73 | the route's own trial test agrees with the entitlement module's |
| Trial.FreshTrialReport | src/app/api/polar/trial/route.ts:31-46 | a trial just started reports all 14 days and is no longer eligible |
| Trial.EligibilityMatchesPost | src/app/api/polar/trial/route.ts:81 | the GET's eligibility flag is exactly the POST's condition for going ahead |
| Billing.ChooseSubscription | src/app/api/polar/sync/route.ts:65 | the subscription chosen is the first one that is active or trialing when there is one, and otherwise the first of the list |
| Billing.SyncTier | src/app/api/polar/sync/route.ts:5-16 | a tier returned belongs to a configured product id equal to the one given; no tier means no tier is configured with that id |
| Billing.ProfileTier | src/app/api/internal/user/profile/route.ts:24-37 | the same bi-directional meaning as SyncTier, for the profile route's order of comparisons |
| Billing.TierOrdersAgree | src/app/api/polar/sync/route.ts:5-16 | the sync order and the profile order give the same tier for every product id configured for one tier only |
| Billing.TierOrdersCanDiffer | src/app/api/internal/user/profile/route.ts:26-29 | an id configured both as annual PRO and as monthly BUSINESS reads as BUSINESS in the sync route and as PRO in the profile route |
| Billing.StatusFromProvider | src/app/api/polar/sync/route.ts:18-27 | "active" and exactly "active" maps to ACTIVE, "trialing" and exactly "trialing" maps to TRIALING; every unknown status reads as INACTIVE |
| Billing.StatusRoundTrip | src/app/api/internal/user/profile/route.ts:40-46 | every internal status is recovered from its provider name, so the table leaves no internal status unreachable |
| Billing.AbsentFilterMatchesAll | src/app/api/polar/webhook/route.ts:126-128 | a where-condition built from an absent payload field matches every row, while a string matches only rows holding that value |
| Billing.OnRequiredColumn | src/app/api/polar/webhook/route.ts:97-99 | on the non-nullable email column a null filter throws exactly as an ill-typed one does |
| Billing.FirstWhere | src/app/api/internal/user/profile/route.ts:48-51 | the query throws exactly on an ill-typed filter; otherwise it yields the first matching row, or none when no row matches |
| PolarSync.SyncRoute | src/app/api/polar/sync/route.ts:29-195 | the route's response and the new user table are those of the sync function on the prior table |
| PolarSync.LinkedSync | src/app/api/polar/sync/route.ts:48-98 | for a caller with a customer id only the caller's row can change; when it does, the provider answered with subscriptions, the chosen one has a known product, the row takes that tier, the mapped status and that subscription id, and the answer is 200 |
| PolarSync.UnknownProductWritesNothing | src/app/api/polar/sync/route.ts:86-93 | a chosen subscription with an unknown product is answered 400 and the table is unchanged |
| PolarSync.NoCustomerWritesNothing | src/app/api/polar/sync/route.ts:172-177 | an unlinked caller for whom the email lookup fails or finds nobody gets 404 and nothing is written |
| PolarSync.EmailMatchIsLinked | src/app/api/polar/sync/route.ts:121-124 | an unlinked caller whose email finds a customer ends up linked to the first customer found, whatever the subscription lookup returns |
| Profile.ProfileRoute | src/app/api/internal/user/profile/route.ts:75-106 | the route's response and the new user table are those of the profile function on the prior table |
| Profile.SyncWritesOneLinkedRow | src/app/api/internal/user/profile/route.ts:5-73 | the sync helper changes at most one row, only a row linked to the customer, and nothing when it reports no tier |
| Profile.ReportedTierIsProducts | src/app/api/internal/user/profile/route.ts:20-37 | a reported tier comes from a non-empty provider answer, is the tier of the chosen subscription's product, and is never FREE |
| Profile.NoSyncNoWrite | src/app/api/internal/user/profile/route.ts:83 | a caller that is not on the FREE tier or has no customer id is served its stored record and nothing is written |
| Profile.CallerSeesOwnSync | src/app/api/internal/user/profile/route.ts:84-104 | when the caller's row is the one the sync updates, the profile shows the synced tier while the subscription id shown is the one read before the sync |
| PolarWebhook.WebhookTier | src/app/api/polar/webhook/route.ts:22-30 | a tier found is never FREE; PRO exactly when the product equals the PRO variable, where an absent product equals an unset variable; no tier exactly when no variable matches |
| PolarWebhook.WebhookStatus | src/app/api/polar/webhook/route.ts:32-45 | ACTIVE exactly for "active"; the table never yields TRIALING |
| PolarWebhook.WebhookRoute | src/app/api/polar/webhook/route.ts:47-256 | the route's response and the new user table are those of the receive function on the prior table |
| PolarWebhook.WritesOnlyWhenReceived | src/app/api/polar/webhook/route.ts:48-91 | a changed table implies the secret is set, the three Svix headers and a body are present, the signature verified and the answer is `{ received: true }` |
| PolarWebhook.HandlersWriteOneRow | src/app/api/polar/webhook/route.ts:93-245 | every handler that completes keeps the table's length and changes at most one row |
| PolarWebhook.UnknownEventIgnored | src/app/api/polar/webhook/route.ts:247-251 | an event type outside the handled ones is acknowledged with no write, whatever its data |
| PolarWebhook.MissingDataFails | src/app/api/polar/webhook/route.ts:86-87 | a handled event whose data is absent or null throws, so the answer is 500 and nothing is written |
| PolarWebhook.CancellationKeepsTier | src/app/api/polar/webhook/route.ts:171-188 | a cancellation of a known subscription id sets CANCELLED on one row holding that id, and the table is otherwise unchanged (the tier stays) |
| PolarWebhook.AbsentFieldsUpgradeFirstRow | src/app/api/polar/webhook/route.ts:119-145 | with the PRO variable unset, a subscription.created event with empty data makes the first row of the table PRO and INACTIVE |
| PolarWebhook.TrialingReadsInactive | src/app/api/polar/webhook/route.ts:32-45 | "trialing" reads as INACTIVE in this route and as TRIALING in the sync route |
| PolarWebhook.UnpaidCheckoutIgnored | src/app/api/polar/webhook/route.ts:93-95 | a checkout.updated event whose status is not "paid" writes nothing |
| PolarWebhook.PaidCheckoutUpgrades | src/app/api/polar/webhook/route.ts:93-117 | a paid checkout for the PRO product gives the first row holding the customer's email tier PRO, ACTIVE and the customer id, and changes no other row |
| PolarWebhook.StatusEventsChangeOnlyStatus | src/app/api/polar/webhook/route.ts:171-245 | cancellation, revocation, past-due and paid-order events change only the status column: CANCELLED, PAST_DUE and ACTIVE respectively |
| PolarWebhook.CustomerCreatedLinksUnlinkedOnly | src/app/api/polar/webhook/route.ts:208-225 | customer.created changes only the customer id, and only on a row that had none |
| HmacWebhook.TableKey | src/lib/polar.ts:17-25 | a key found is one of the seven product-table keys, in declaration order |
| HmacWebhook.TierForProduct | src/app/api/webhooks/polar/route.ts:44-46 | the corrected rule: PRO exactly for either PRO product, FREE exactly when no table key matches, and otherwise the tier that the key names, with or without its billing period |
| HmacWebhook.UpdateMatching | src/app/api/webhooks/polar/route.ts:48-55 | an update-many throws exactly on an ill-typed filter; otherwise every matching row is rewritten and every other row kept |
| HmacWebhook.StatusOf | src/app/api/webhooks/polar/route.ts:65-77 | each provider status name maps to its own internal status, trialing included |
| HmacWebhook.WebhookRoute | src/app/api/webhooks/polar/route.ts:6-120 | the route with the corrected tier rule of the Findings row: its response and the new user table are those of the receive function on the prior table; the tier as written is stated by MonthlyProPurchaseRejected |
| HmacWebhook.UnsignedWritesNothing | src/app/api/webhooks/polar/route.ts:8-20 | a changed table implies the secret is set, the polar-signature header equals the HMAC of the body, and the answer is `{ received: true }` |
| HmacWebhook.MonthlyProPurchaseRejected | src/app/api/webhooks/polar/route.ts:41-57 | as written, subscription.created for the monthly PRO product ends in a failed update, so the answer is 500 and nothing changes |
| HmacWebhook.MonthlyProPurchaseUpgrades | src/app/api/webhooks/polar/route.ts:41-57 | with the corrected tier, the same event makes every row linked to the customer PRO and ACTIVE and leaves every other row alone |
| HmacWebhook.CorrectionKeepsValidTiers | src/app/api/webhooks/polar/route.ts:44-46 | where the written key already is a tier name the corrected rule writes the same tier; the written rule fails for exactly the four per-period PRO and BUSINESS keys |
| HmacWebhook.AbsentCustomerCancelsEveryone | src/app/api/webhooks/polar/route.ts:83-93 | a subscription.canceled event whose data has no customer_id makes every user FREE and CANCELLED |
| HmacWebhook.CancellationDowngrades | src/app/api/webhooks/polar/route.ts:83-93 | a cancellation for a customer makes that customer's row FREE and CANCELLED |
| HmacWebhook.OtherEventsIgnored | src/app/api/webhooks/polar/route.ts:104-115 | events other than the six with data, benefit and refund events included, are acknowledged with no write, in the written and in the corrected handler alike |
| HmacWebhook.CheckoutWithoutEmailWritesNothing | src/app/api/webhooks/polar/route.ts:27-39 | a completed checkout without a customer email writes nothing, in the written and in the corrected handler alike |
| HmacWebhook.UpdatedSetsTierAndStatus | src/app/api/webhooks/polar/route.ts:59-81 | subscription.updated gives every row linked to the customer the product's tier and the mapped status, trialing included, and leaves every other row alone |
| WebhookEvents.SixEvents | src/lib/webhooks/events.ts:1-14 | the event table has exactly the six names, and a name is accepted exactly when it is one of them |
| WebhookEvents.TestEventIsNotAnEvent | src/lib/webhooks/events.ts:12-14 | a name outside the table, such as the one sent when testing an endpoint, is refused |
| WebhookSignature.SignedText | src/lib/webhooks/verify.ts:8 | the signed text starts with the decimal timestamp and a dot, and the rest of it is exactly the serialised payload |
| WebhookSignature.SafeEqual | src/lib/webhooks/verify.ts:28-31 | the constant-time comparison throws exactly when the lengths differ, and otherwise answers whether the two are equal |
| WebhookSignature.VerifyWebhookSignature | src/lib/webhooks/verify.ts:12-35 | a signature is accepted exactly when the timestamp is within the tolerance of the receiver's clock in whole seconds and the signature equals the one computed from payload, secret and timestamp |
| WebhookSignature.OutsideWindowRejected | src/lib/webhooks/verify.ts:21-23 | a timestamp farther than the tolerance from the clock is refused whatever the signature |
| WebhookSignature.SignedAtEdgeAccepted | src/lib/webhooks/verify.ts:17-23 | with the default tolerance of 300 s, a correctly signed timestamp exactly 300 s old is still accepted |
| WebhookSignature.LengthMismatchRejected | src/lib/webhooks/verify.ts:27-34 | a signature of another length than the expected one is refused, because the thrown comparison is caught as false |
| WebhookSignature.SignThenVerify | src/lib/webhooks/verify.ts:3-35 | what the sender signs with the current second as timestamp, the receiver accepts for every tolerance |
| WebhookSignature.GenerateWebhookSecret | src/lib/webhooks/verify.ts:37-39 | a secret is `whsec_` followed by exactly the random base64url text |
| WebhookSend.RequestFor | src/lib/webhooks/send.ts:16-38 | the request goes to the endpoint's URL, with the signature header equal to the signature of `{event, data, timestamp}` under the endpoint's secret, the timestamp header in decimal and the event header |
| WebhookSend.DeliveryRow | src/lib/webhooks/send.ts:43-55 | a delivery row carries the attempt number and success exactly when the response is ok; a response stores at most 1000 characters of its body; a thrown attempt stores its error message and no status |
| WebhookSend.MakeAttempt | src/lib/webhooks/send.ts:27-55 | one attempt sends the request and appends exactly one delivery row for that attempt number |
| WebhookSend.AttemptDelivery | src/lib/webhooks/send.ts:20-86 | the loop makes the attempts up to the first ok one and at most three, appends one delivery row per attempt in order, sends the same request each time, and waits before each attempt after the first |
| WebhookSend.SendWebhook | src/lib/webhooks/send.ts:11-95 | the delivery rows appended are those of the attempts made, and the endpoint row alone gets its success or failure bookkeeping |
| WebhookSend.TriesShape | src/lib/webhooks/send.ts:23-86 | the attempts are numbered consecutively from the first, every attempt but the last failed, and stopping before the third means the last was ok |
| WebhookSend.DeliveredIffSomeAttemptOk | src/lib/webhooks/send.ts:57-63 | a delivery succeeds exactly when one of the three attempts would be ok, and a failed delivery makes exactly three attempts |
| WebhookSend.WaitSchedule | src/lib/webhooks/send.ts:65-68 | at most two waits are taken, 4000 ms and then 8000 ms |
| WebhookSend.HealthBookkeeping | src/lib/webhooks/send.ts:57-94 | a success sets the success time and clears the failure count; exhaustion sets the failure time and adds exactly one failure; the other time field is kept |
| WebhookSend.TriggerTargets | src/lib/webhooks/send.ts:97-113 | the endpoints selected are exactly the user's active endpoints subscribed to the event |

## Left out

- Redis expiry: keys are written with their time-to-live (the API-key cache 300 s, the analysis cache 86400 s, the rate counters 60 s, one day and 30 days), but in the model no entry ever expires. So a cached key or analysis stays until it is deleted, and a counter is only reset by moving to a new window key. The source's 30-day month counter can also expire before a 31-day calendar month ends; this is not modelled either.
- Network, database and Redis failures other than those the routes handle themselves: every store call succeeds in the model. The exception is the usage-log insert of the v1 analyze route, whose caught failure is an input.
- Concurrency: `Promise.all` over the three rate-limit increments is three sequential increments. `Promise.allSettled` in the batch route is a given sequence of per-item outcomes. The fire-and-forget `sendWebhook` calls of `triggerWebhooks` are left out; only the endpoint selection is modelled.
- WebhookSend.SendWebhook: the clock is read once, and the elapsed time of each attempt is part of the attempt's observed outcome. The per-attempt `Date.now` readings and the `deliveredAt` column are not modelled. Failures of the delivery-row inserts and of the endpoint update are not modelled either.
- Floating point: success rates, improvement percentages and average processing times are computed on exact rationals, and rounding is round-half-up of the exact value. Double-precision error is not modelled. JSON numbers are read through `IntField`, so a `word_count` or `tokens_used` that is not an integer is logged as absent by the v1 analyze route and counts as 0 tokens in V1Batch.TokensOf, where the source passes the value on unchanged.
- Strings are sequences of characters: lengths count characters, not UTF-16 code units. There is no Unicode case folding or normalisation.
- Cryptography and randomness: SHA-256, MD5, HMAC-SHA256, Svix verification, `randomBytes`, base64url and UUIDs are parameters. The model proves what the code does with their outputs, not anything about the functions themselves.
- JSON: `JSON.parse` and `JSON.stringify` are parameters. The validation library is modelled only as far as the schemas use it: required and optional strings with length bounds, booleans with defaults, enums, arrays with item counts, and the first issue's message and path.
- The ORM treats an object-valued payload field as an operator filter. The model treats any non-string, non-null payload value used as a filter, or written to a nullable text column, as a query that throws before any row is touched. A null filter on the non-nullable email column is also treated as throwing.
- Schema.UniqueUserIds and Schema.UniqueClerkIds: the uniqueness of user ids and Clerk ids is a database constraint. Lemmas that rely on it take it as a precondition.
- Subscription.ExpireTrials: its own contract says only that the sweep keeps every row in place. Which rows end their trial (Subscription.LapsedTrialEnded), which rows are untouched (Subscription.RunningTrialSurvivesSweep), and that the sweep is idempotent are stated by the lemmas beside it.
- Local-time calendars: trial end dates add whole days of milliseconds, so daylight-saving shifts are ignored. The local-time day and month reset instants of the rate limiter are inputs.
- WebhookEvents.IsValidWebhookEvent: the code's `in` test also accepts names inherited by every object, such as "toString". The model accepts exactly the six table names.
- The provider's REST client, checkout and portal routes, the UI, Clerk sign-in, the health route and the plain CRUD routes are not part of this model. Neither is the test runner script.
- The profile response omits `name` and `createdAt`. All other fields it reports are modelled.
- Profile.SyncFromProvider: the status lookup `statusMap[status] || 'INACTIVE'` is on a plain object. A provider status naming an inherited property, such as "toString" or "constructor", yields a function that the ORM refuses; the code then catches the error and reports a null tier and status with no write. The model maps every name outside the table to INACTIVE and writes it.
- HmacWebhook.StatusOf: the same plain-object lookup in the HMAC-signed webhook. An inherited property name makes the update throw and the route answer 500, and a non-string status is converted to a key first (a one-element array `["active"]` reads as "active"). The model maps every name outside the table, and every non-string status, to INACTIVE.
- Schema.AnalysisRow: the saved analysis keeps the user id, title, content and tokens used. The word count, the scores, the keyword density, the suggestions, the enhanced content and the processing time are copied from the analyzer's result and are not modelled.

## Findings

| source | as written | input that shows it | evidently intended | confidence | as-written member | corrected member |
|---|---|---|---|---|---|---|
| src/app/api/webhooks/polar/route.ts:44-46 | the tier written is the product table's key, such as `PRO_MONTHLY` (src/lib/polar.ts:17-25); four of the seven keys are not tier values, so the update throws and the event answers 500 | a `subscription.created` event whose `product_id` is the configured monthly PRO product | write the tier the key names (`PRO` for `PRO_MONTHLY` and `PRO_ANNUAL`, `BUSINESS` for the two BUSINESS keys) | not executed | HmacWebhook.MonthlyProPurchaseRejected | HmacWebhook.TierForProduct |
