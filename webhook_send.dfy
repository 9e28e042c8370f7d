/**
 * Outgoing webhook delivery: one signed POST per attempt, at most three
 * attempts with exponential waits between them, one delivery row per
 * attempt, and the endpoint's health fields updated once at the end.
 */
module WebhookSend {
  import opened Wrappers
  import opened Strings
  import opened Http
  import opened Schema
  import opened Rows
  import opened Stores
  import opened WebhookSignature

  const MaxAttempts := 3
  const ResponseBodyLimit := 1000

  /** The request every attempt sends. */
  datatype OutgoingRequest = OutgoingRequest(url: string, headers: map<string, string>, body: string)

  /**
   * What one attempt observed: a response (its status, its body text, ''
   * when reading it failed, and the elapsed time), or a thrown error such
   * as a network failure or the 10-second timeout.
   */
  datatype Attempt = Responded(status: int, body: string, elapsedMs: int) | Failed(message: string)

  /** `response.ok`. */
  predicate Ok(a: Attempt)
  {
    a.Responded? && 200 <= a.status <= 299
  }

  function WebhookPayload(event: string, data: Json, timestamp: int): Json
  {
    JObj(map["event" := JStr(event), "data" := data, "timestamp" := JInt(timestamp)])
  }

  function RequestFor(endpoint: WebhookEndpoint, event: string, data: Json, timestamp: int,
                      hmac: Hmac, stringify: Stringify): (r: OutgoingRequest)
    ensures r.url == endpoint.url
    ensures "X-Webhook-Signature" in r.headers && "X-Webhook-Timestamp" in r.headers && "X-Webhook-Event" in r.headers
    ensures r.headers["X-Webhook-Signature"]
         == GenerateSignature(WebhookPayload(event, data, timestamp), endpoint.secret, timestamp, hmac, stringify)
    ensures r.headers["X-Webhook-Timestamp"] == IntToString(timestamp) && r.headers["X-Webhook-Event"] == event
  {
    var payload := WebhookPayload(event, data, timestamp);
    OutgoingRequest(endpoint.url,
                    map["Content-Type" := "application/json",
                        "X-Webhook-Signature" := GenerateSignature(payload, endpoint.secret, timestamp, hmac, stringify),
                        "X-Webhook-Timestamp" := IntToString(timestamp),
                        "X-Webhook-Event" := event,
                        "User-Agent" := "ContentAnalyzer-Webhooks/1.0"],
                    stringify(payload))
  }

  /** The delivery row written for attempt `n`. */
  function DeliveryRow(endpointId: string, event: string, payload: Json, n: nat, a: Attempt): (d: WebhookDelivery)
    ensures d.attemptNumber == n && d.success == Ok(a)
    ensures a.Responded? ==> d.responseBody == Some(Take(a.body, ResponseBodyLimit))
    ensures a.Failed? ==> d.errorMessage == Some(a.message) && d.statusCode.None?
  {
    match a
    case Responded(status, body, elapsed) =>
      WebhookDelivery(endpointId, event, payload, Some(status), Some(Take(body, ResponseBodyLimit)), Some(elapsed), n, Ok(a), None)
    case Failed(message) =>
      WebhookDelivery(endpointId, event, payload, None, None, None, n, false, Some(message))
  }

  /** The attempts made from attempt `n` on: up to the first ok one, and no further than the third. */
  function Tries(post: (OutgoingRequest, nat) -> Attempt, req: OutgoingRequest, n: nat): (t: seq<Attempt>)
    ensures 1 <= n <= MaxAttempts ==> |t| >= 1
    decreases MaxAttempts + 1 - n
  {
    if n > MaxAttempts || n == 0 then []
    else if Ok(post(req, n)) then [post(req, n)]
    else [post(req, n)] + Tries(post, req, n + 1)
  }

  function Deliveries(endpointId: string, event: string, payload: Json, tries: seq<Attempt>): (ds: seq<WebhookDelivery>)
    ensures |ds| == |tries|
    ensures forall i :: 0 <= i < |tries| ==> ds[i] == DeliveryRow(endpointId, event, payload, i + 1, tries[i])
  {
    seq(|tries|, i requires 0 <= i < |tries| => DeliveryRow(endpointId, event, payload, i + 1, tries[i]))
  }

  function Pow2(k: nat): (r: nat)
    ensures r >= 1
  {
    if k == 0 then 1 else 2 * Pow2(k - 1)
  }

  /** `Math.pow(2, n) * 1000` before attempt `n`. */
  function BackoffBefore(n: nat): int
  {
    Pow2(n) * 1000
  }

  /** The waits taken before attempts 2 .. k + 1. */
  function Backoffs(k: nat): (ws: seq<int>)
    ensures |ws| == k
    ensures forall i :: 0 <= i < k ==> ws[i] == BackoffBefore(i + 2)
  {
    seq(k, i requires 0 <= i < k => BackoffBefore(i + 2))
  }

  predicate Delivered(tries: seq<Attempt>)
  {
    |tries| > 0 && Ok(tries[|tries| - 1])
  }

  function EndpointIdIs(id: string): WebhookEndpoint -> bool
  {
    (e: WebhookEndpoint) => e.id == id
  }

  function MarkSucceeded(nowMs: int): WebhookEndpoint -> WebhookEndpoint
  {
    (e: WebhookEndpoint) => e.(lastSuccessAt := Some(nowMs), failureCount := 0)
  }

  function MarkFailed(nowMs: int): WebhookEndpoint -> WebhookEndpoint
  {
    (e: WebhookEndpoint) => e.(lastFailureAt := Some(nowMs), failureCount := e.failureCount + 1)
  }

  function HealthAfter(tries: seq<Attempt>, nowMs: int): WebhookEndpoint -> WebhookEndpoint
  {
    if Delivered(tries) then MarkSucceeded(nowMs) else MarkFailed(nowMs)
  }

  /** One attempt: send the request and record the delivery row. */
  method MakeAttempt(db: Db, endpointId: string, event: string, payload: Json, req: OutgoingRequest,
                     post: (OutgoingRequest, nat) -> Attempt, n: nat) returns (a: Attempt)
    modifies db`webhookDeliveries
    ensures a == post(req, n)
    ensures db.webhookDeliveries == old(db.webhookDeliveries) + [DeliveryRow(endpointId, event, payload, n, a)]
  {
    a := post(req, n);
    db.webhookDeliveries := db.webhookDeliveries + [DeliveryRow(endpointId, event, payload, n, a)];
  }

  /**
   * The retry loop of `sendWebhook`: attempts the request until one
   * attempt is ok or three have been made, writing one delivery row per
   * attempt.  Returns whether an attempt was ok, the requests sent and the
   * waits taken.
   */
  method AttemptDelivery(db: Db, endpointId: string, event: string, payload: Json, req: OutgoingRequest,
                         post: (OutgoingRequest, nat) -> Attempt)
    returns (delivered: bool, sent: seq<OutgoingRequest>, waits: seq<int>)
    modifies db`webhookDeliveries
    ensures var tries := Tries(post, req, 1);
      && delivered == Delivered(tries)
      && db.webhookDeliveries == old(db.webhookDeliveries) + Deliveries(endpointId, event, payload, tries)
      && |sent| == |tries| && (forall i :: 0 <= i < |sent| ==> sent[i] == req)
      && waits == Backoffs(|tries| - 1)
  {
    ghost var all := Tries(post, req, 1);
    ghost var made := 0;
    ghost var before := db.webhookDeliveries;
    sent := [];
    waits := [];
    delivered := false;
    var attemptNumber := 1;
    while attemptNumber <= MaxAttempts && !delivered
      invariant Progress(post, req, made, delivered, attemptNumber)
      invariant db.webhookDeliveries == before + Deliveries(endpointId, event, payload, all[..made])
      invariant |sent| == made && forall i :: 0 <= i < |sent| ==> sent[i] == req
      invariant waits == Backoffs(if delivered then made - 1 else Min(made, MaxAttempts - 1))
      decreases MaxAttempts + 1 - attemptNumber + (if delivered then 0 else 1)
    {
      ProgressStep(post, req, made, attemptNumber);
      DeliveriesStep(before, endpointId, event, payload, all, made);
      var a := MakeAttempt(db, endpointId, event, payload, req, post, attemptNumber);
      sent := sent + [req];
      made := made + 1;
      if Ok(a) {
        delivered := true;
      } else {
        attemptNumber := attemptNumber + 1;
        if attemptNumber <= MaxAttempts {
          BackoffsSnoc(made - 1);
          waits := waits + [BackoffBefore(attemptNumber)];
        }
      }
    }
    TriesShape(post, req, 1);
    assert all[..made] == all;
  }

  /**
   * The retry loop's position after `made` attempts: how many were made,
   * whether the last was ok, and that every earlier one failed.
   */
  ghost predicate Progress(post: (OutgoingRequest, nat) -> Attempt, req: OutgoingRequest, made: nat, delivered: bool,
                           attemptNumber: nat)
  {
    var all := Tries(post, req, 1);
    && 1 <= attemptNumber <= MaxAttempts + 1 && made <= |all|
    && (delivered ==> made == |all| && Delivered(all))
    && (!delivered ==> made == attemptNumber - 1 && forall i :: 0 <= i < made ==> !Ok(all[i]))
  }

  lemma ProgressStep(post: (OutgoingRequest, nat) -> Attempt, req: OutgoingRequest, made: nat, attemptNumber: nat)
    requires Progress(post, req, made, false, attemptNumber) && attemptNumber <= MaxAttempts
    ensures made < |Tries(post, req, 1)| && Tries(post, req, 1)[made] == post(req, attemptNumber)
    ensures Ok(post(req, attemptNumber)) ==> Progress(post, req, made + 1, true, attemptNumber)
    ensures !Ok(post(req, attemptNumber)) ==> Progress(post, req, made + 1, false, attemptNumber + 1)
  {
    TriesShape(post, req, 1);
  }

  /**
   * `sendWebhook`: `nowMs` is the clock, read once; `post` performs attempt
   * `n` of the request.  Returns the requests sent and the waits taken.
   */
  method SendWebhook(db: Db, endpoint: WebhookEndpoint, event: string, data: Json, nowMs: nat,
                     post: (OutgoingRequest, nat) -> Attempt, hmac: Hmac, stringify: Stringify)
    returns (sent: seq<OutgoingRequest>, waits: seq<int>)
    modifies db`webhookDeliveries, db`webhookEndpoints
    ensures var timestamp := nowMs / 1000;
      var req := RequestFor(endpoint, event, data, timestamp, hmac, stringify);
      var tries := Tries(post, req, 1);
      && db.webhookDeliveries == old(db.webhookDeliveries) + Deliveries(endpoint.id, event, WebhookPayload(event, data, timestamp), tries)
      && db.webhookEndpoints == UpdateWhere(old(db.webhookEndpoints), EndpointIdIs(endpoint.id), HealthAfter(tries, nowMs))
      && |sent| == |tries| && (forall i :: 0 <= i < |sent| ==> sent[i] == req)
      && waits == Backoffs(|tries| - 1)
  {
    var timestamp := nowMs / 1000;
    var payload := WebhookPayload(event, data, timestamp);
    var req := RequestFor(endpoint, event, data, timestamp, hmac, stringify);
    var delivered;
    delivered, sent, waits := AttemptDelivery(db, endpoint.id, event, payload, req, post);
    db.webhookEndpoints := UpdateWhere(db.webhookEndpoints, EndpointIdIs(endpoint.id),
                                       if delivered then MarkSucceeded(nowMs) else MarkFailed(nowMs));
  }

  lemma TriesStep(post: (OutgoingRequest, nat) -> Attempt, req: OutgoingRequest, n: nat)
    requires 1 <= n <= MaxAttempts
    ensures Ok(post(req, n)) ==> Tries(post, req, n) == [post(req, n)]
    ensures !Ok(post(req, n)) ==> Tries(post, req, n) == [post(req, n)] + Tries(post, req, n + 1)
  {
  }

  lemma DeliveriesSnoc(endpointId: string, event: string, payload: Json, tries: seq<Attempt>, a: Attempt)
    ensures Deliveries(endpointId, event, payload, tries + [a])
         == Deliveries(endpointId, event, payload, tries) + [DeliveryRow(endpointId, event, payload, |tries| + 1, a)]
  {
    var l := Deliveries(endpointId, event, payload, tries + [a]);
    var r := Deliveries(endpointId, event, payload, tries) + [DeliveryRow(endpointId, event, payload, |tries| + 1, a)];
    assert |l| == |r|;
    forall i | 0 <= i < |l| ensures l[i] == r[i] {
      if i < |tries| {
        assert (tries + [a])[i] == tries[i];
      }
    }
  }

  lemma DeliveriesStep(before: seq<WebhookDelivery>, endpointId: string, event: string, payload: Json,
                       all: seq<Attempt>, made: nat)
    requires made < |all|
    ensures before + Deliveries(endpointId, event, payload, all[..made + 1])
         == (before + Deliveries(endpointId, event, payload, all[..made])) + [DeliveryRow(endpointId, event, payload, made + 1, all[made])]
  {
    assert all[..made] + [all[made]] == all[..made + 1];
    DeliveriesSnoc(endpointId, event, payload, all[..made], all[made]);
  }

  lemma BackoffsSnoc(k: nat)
    ensures Backoffs(k + 1) == Backoffs(k) + [BackoffBefore(k + 2)]
  {
    assert forall i :: 0 <= i < k ==> Backoffs(k + 1)[i] == Backoffs(k)[i];
  }

  // ---------------------------------------------------------------------
  // Properties of the attempt sequence

  /** The attempts from `n` on are attempts n, n+1, … in order; all but the last failed. */
  lemma {:induction false} TriesShape(post: (OutgoingRequest, nat) -> Attempt, req: OutgoingRequest, n: nat)
    requires 1 <= n <= MaxAttempts
    ensures var t := Tries(post, req, n);
      && 1 <= |t| <= MaxAttempts + 1 - n
      && (forall i :: 0 <= i < |t| ==> t[i] == post(req, n + i))
      && (forall i :: 0 <= i < |t| - 1 ==> !Ok(t[i]))
      && (|t| < MaxAttempts + 1 - n ==> Ok(t[|t| - 1]))
    decreases MaxAttempts + 1 - n
  {
    if !Ok(post(req, n)) && n < MaxAttempts {
      TriesShape(post, req, n + 1);
    }
  }

  /**
   * Delivery succeeds exactly when one of the three attempts would; a
   * failed delivery is made of exactly three failed attempts.
   */
  lemma DeliveredIffSomeAttemptOk(post: (OutgoingRequest, nat) -> Attempt, req: OutgoingRequest)
    ensures Delivered(Tries(post, req, 1)) <==> Ok(post(req, 1)) || Ok(post(req, 2)) || Ok(post(req, 3))
    ensures !Delivered(Tries(post, req, 1)) ==> |Tries(post, req, 1)| == MaxAttempts
  {
    TriesShape(post, req, 1);
  }

  /** The waits are 4000 ms and then 8000 ms, and never more than two. */
  lemma WaitSchedule(post: (OutgoingRequest, nat) -> Attempt, req: OutgoingRequest)
    ensures var ws := Backoffs(|Tries(post, req, 1)| - 1);
      |ws| <= 2 && (forall i :: 0 <= i < |ws| ==> ws[i] == [4000, 8000][i])
  {
    TriesShape(post, req, 1);
    assert BackoffBefore(2) == 4000 && BackoffBefore(3) == 8000;
  }

  /** A success clears the failure count; an exhausted delivery adds exactly one failure. */
  lemma HealthBookkeeping(endpoints: seq<WebhookEndpoint>, id: string, tries: seq<Attempt>, nowMs: int, i: nat)
    requires i < |endpoints| && endpoints[i].id == id
    ensures var after := UpdateWhere(endpoints, EndpointIdIs(id), HealthAfter(tries, nowMs))[i];
      && (Delivered(tries) ==> after.failureCount == 0 && after.lastSuccessAt == Some(nowMs)
                               && after.lastFailureAt == endpoints[i].lastFailureAt)
      && (!Delivered(tries) ==> after.failureCount == endpoints[i].failureCount + 1 && after.lastFailureAt == Some(nowMs)
                                && after.lastSuccessAt == endpoints[i].lastSuccessAt)
  {
  }

  // ---------------------------------------------------------------------
  // Endpoint selection

  /** `triggerWebhooks`: the user's active endpoints subscribed to the event, in table order. */
  function TriggerTargets(endpoints: seq<WebhookEndpoint>, userId: string, event: string): (r: seq<WebhookEndpoint>)
    ensures forall e :: e in r <==> e in endpoints && e.userId == userId && e.isActive && event in e.events
  {
    FindMany(endpoints, (e: WebhookEndpoint) => e.userId == userId && e.isActive && event in e.events)
  }
}
