/**
 * Signatures on outgoing webhooks: an HMAC-SHA256 hex digest, keyed by the
 * endpoint's secret, of the decimal timestamp, a dot and the JSON payload.
 * A receiver accepts a signature only inside a tolerance window around
 * its own clock and only when it equals the one it computes.
 */
module WebhookSignature {
  import opened Wrappers
  import opened Strings
  import opened Http

  /** `createHmac('sha256', key).update(text).digest('hex')`, not part of this model. */
  type Hmac = (string, string) -> string

  /** `JSON.stringify`, not part of this model. */
  type Stringify = Json -> string

  const DefaultToleranceSeconds := 300

  /** The signed text: the timestamp in decimal, a dot, then the serialised payload. */
  function SignedText(payload: Json, timestamp: int, stringify: Stringify): (t: string)
    ensures StartsWith(t, IntToString(timestamp) + ".")
    ensures t[|IntToString(timestamp)| + 1..] == stringify(payload)
  {
    IntToString(timestamp) + "." + stringify(payload)
  }

  function GenerateSignature(payload: Json, secret: string, timestamp: int, hmac: Hmac, stringify: Stringify): string
  {
    hmac(secret, SignedText(payload, timestamp, stringify))
  }

  function Abs(x: int): nat { if x < 0 then -x else x }

  /** `timingSafeEqual` over the two strings: it throws (None) when their lengths differ. */
  function SafeEqual(a: string, b: string): (r: Option<bool>)
    ensures r.None? <==> |a| != |b|
    ensures r.Some? ==> (r.value <==> a == b)
  {
    if |a| != |b| then None else Some(a == b)
  }

  /** `nowMs` is the receiver's clock in milliseconds; the tolerance is in seconds. */
  function VerifyWebhookSignature(payload: Json, signature: string, secret: string, timestamp: int,
                                  nowMs: int, toleranceSeconds: int, hmac: Hmac, stringify: Stringify): (ok: bool)
    ensures ok <==> Abs(nowMs / 1000 - timestamp) <= toleranceSeconds
                    && signature == GenerateSignature(payload, secret, timestamp, hmac, stringify)
  {
    var now := nowMs / 1000;
    if Abs(now - timestamp) > toleranceSeconds then false
    else
      var expected := GenerateSignature(payload, secret, timestamp, hmac, stringify);
      match SafeEqual(signature, expected)
      case None => false
      case Some(same) => same
  }

  /** A stale or future timestamp is refused whatever the signature. */
  lemma OutsideWindowRejected(payload: Json, signature: string, secret: string, timestamp: int,
                              nowMs: int, toleranceSeconds: int, hmac: Hmac, stringify: Stringify)
    requires Abs(nowMs / 1000 - timestamp) > toleranceSeconds
    ensures !VerifyWebhookSignature(payload, signature, secret, timestamp, nowMs, toleranceSeconds, hmac, stringify)
  {
  }

  /** The window is closed: a timestamp exactly the tolerance away still verifies. */
  lemma SignedAtEdgeAccepted(payload: Json, secret: string, timestamp: int, nowMs: int, hmac: Hmac, stringify: Stringify)
    requires nowMs / 1000 == timestamp + DefaultToleranceSeconds
    ensures VerifyWebhookSignature(payload, GenerateSignature(payload, secret, timestamp, hmac, stringify), secret,
                                   timestamp, nowMs, DefaultToleranceSeconds, hmac, stringify)
  {
  }

  /** A signature of another length is refused (the comparison throws and is caught). */
  lemma LengthMismatchRejected(payload: Json, signature: string, secret: string, timestamp: int,
                               nowMs: int, toleranceSeconds: int, hmac: Hmac, stringify: Stringify)
    requires |signature| != |GenerateSignature(payload, secret, timestamp, hmac, stringify)|
    ensures !VerifyWebhookSignature(payload, signature, secret, timestamp, nowMs, toleranceSeconds, hmac, stringify)
  {
  }

  /** What the sender signs, the receiver accepts, whenever the clocks agree within the window. */
  lemma SignThenVerify(payload: Json, secret: string, nowMs: int, toleranceSeconds: nat, hmac: Hmac, stringify: Stringify)
    ensures var ts := nowMs / 1000;
      VerifyWebhookSignature(payload, GenerateSignature(payload, secret, ts, hmac, stringify), secret, ts,
                             nowMs, toleranceSeconds, hmac, stringify)
  {
  }

  /** `whsec_` followed by the base64url text of 24 random bytes, which are not part of this model. */
  function GenerateWebhookSecret(randomBase64Url: string): (s: string)
    ensures StartsWith(s, "whsec_") && s[6..] == randomBase64Url
  {
    "whsec_" + randomBase64Url
  }
}
