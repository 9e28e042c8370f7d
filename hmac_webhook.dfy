/**
 * POST /api/webhooks/polar: billing events signed with a hex HMAC-SHA256
 * of the raw body.  Each event rewrites every row matching a filter
 * built from the payload (`updateMany`); the subscription events take the
 * tier from the key of the product table whose value is the event's
 * product.
 */
module HmacWebhook {
  import opened Wrappers
  import opened Http
  import opened Schema
  import opened Rows
  import opened Stores
  import opened InternalAuth
  import opened Billing

  // ---------------------------------------------------------------------
  // The product table and the tier it yields

  /** The product table's keys in declaration order; `lib/polar.ts` has no annual API_GROWTH entry. */
  function TableKey(p: Products, v: Option<Json>): (k: Option<string>)
    ensures k.Some? ==> k.value in ["PRO_MONTHLY", "PRO_ANNUAL", "BUSINESS_MONTHLY", "BUSINESS_ANNUAL",
                                    "API_STARTER", "API_GROWTH", "API_ENTERPRISE"]
  {
    if SameProduct(v, p.proMonthly) then Some("PRO_MONTHLY")
    else if SameProduct(v, p.proAnnual) then Some("PRO_ANNUAL")
    else if SameProduct(v, p.businessMonthly) then Some("BUSINESS_MONTHLY")
    else if SameProduct(v, p.businessAnnual) then Some("BUSINESS_ANNUAL")
    else if SameProduct(v, p.apiStarter) then Some("API_STARTER")
    else if SameProduct(v, p.apiGrowth) then Some("API_GROWTH")
    else if SameProduct(v, p.apiEnterprise) then Some("API_ENTERPRISE")
    else None
  }

  /**
   * As written: the key itself (or "FREE") is written to the tier
   * column; None when it is not one of the column's enum values, which
   * makes the update throw.
   */
  function WrittenTier(p: Products, v: Option<Json>): Option<SubscriptionTier>
  {
    match TableKey(p, v)
    case None => Some(Free)
    case Some(k) => TierFromName(k)
  }

  /** As intended: a key names a billing period of a tier, and the tier is what is written. */
  function TierForProduct(p: Products, v: Option<Json>): (t: SubscriptionTier)
    ensures t == Pro <==> SameProduct(v, p.proMonthly) || SameProduct(v, p.proAnnual)
    ensures t == Free <==> TableKey(p, v).None?
    ensures TableKey(p, v).Some? ==> TierName(t) == TableKey(p, v).value
                                     || TableKey(p, v).value == TierName(t) + "_MONTHLY"
                                     || TableKey(p, v).value == TierName(t) + "_ANNUAL"
  {
    match TableKey(p, v)
    case None => Free
    case Some(k) =>
      if k == "PRO_MONTHLY" || k == "PRO_ANNUAL" then Pro
      else if k == "BUSINESS_MONTHLY" || k == "BUSINESS_ANNUAL" then Business
      else if k == "API_STARTER" then ApiStarter
      else if k == "API_GROWTH" then ApiGrowth
      else ApiEnterprise
  }

  // ---------------------------------------------------------------------
  // The event handlers

  /** `updateMany({ where: { column: f }, data })`: throws on an ill-typed filter, else rewrites every match. */
  function UpdateMatching(users: seq<User>, f: Filter, column: User -> Option<string>, g: User -> User): (o: Outcome)
    ensures o.Raised? <==> f.BadFilter?
    ensures o.Wrote? ==> (|o.users| == |users| &&
      forall i :: 0 <= i < |users| ==> o.users[i] == if FilterMatches(f, column(users[i])) then g(users[i]) else users[i])
  {
    if f.BadFilter? then Raised else Wrote(UpdateWhere(users, (u: User) => FilterMatches(f, column(u)), g))
  }

  function OnCheckoutCompleted(users: seq<User>, data: Json): Outcome
  {
    var email := Field(data, "customer_email");
    if !Truthy(email) then Wrote(users)
    else
      var a := AssignOf(Field(data, "customer_id"));
      if a.BadAssign? then Raised
      else UpdateMatching(users, OnRequiredColumn(FilterOf(email)), EmailColumn,
                          (u: User) => u.(polarCustomerId := Assigned(a, u.polarCustomerId)))
  }

  /** subscription.created and subscription.activated, given the tier the product yields (None: rejected). */
  function OnSubscriptionStarted(users: seq<User>, tier: Option<SubscriptionTier>, data: Json): Outcome
  {
    var a := AssignOf(Field(data, "id"));
    if tier.None? || a.BadAssign? then Raised
    else UpdateMatching(users, FilterOf(Field(data, "customer_id")), CustomerColumn,
                        (u: User) => u.(subscriptionTier := tier.value, subscriptionStatus := Active,
                                        polarSubscriptionId := Assigned(a, u.polarSubscriptionId)))
  }

  /** This route's status table, which does include "trialing". */
  function StatusOf(v: Option<Json>): (s: SubscriptionStatus)
    ensures forall n :: v == Some(JStr(ProviderStatusName(n))) ==> s == n
  {
    if v.Some? && v.value.JStr? then StatusFromProvider(v.value.s) else Inactive
  }

  function OnSubscriptionUpdated(users: seq<User>, tier: Option<SubscriptionTier>, data: Json): Outcome
  {
    if tier.None? then Raised
    else UpdateMatching(users, FilterOf(Field(data, "customer_id")), CustomerColumn,
                        (u: User) => u.(subscriptionTier := tier.value, subscriptionStatus := StatusOf(Field(data, "status"))))
  }

  function OnSubscriptionCanceled(users: seq<User>, data: Json): Outcome
  {
    UpdateMatching(users, FilterOf(Field(data, "customer_id")), CustomerColumn,
                   (u: User) => u.(subscriptionTier := Free, subscriptionStatus := Cancelled))
  }

  function OnCustomerCreated(users: seq<User>, data: Json): Outcome
  {
    var a := AssignOf(Field(data, "id"));
    if a.BadAssign? then Raised
    else UpdateMatching(users, OnRequiredColumn(FilterOf(Field(data, "email"))), EmailColumn,
                        (u: User) => u.(polarCustomerId := Assigned(a, u.polarCustomerId)))
  }

  const DataEvents := ["checkout.session.completed", "subscription.created", "subscription.activated",
                       "subscription.updated", "subscription.canceled", "customer.created"]

  /** The switch, with the product→tier rule as a parameter so both readings of it can be stated. */
  function Dispatch(users: seq<User>, tierOf: Option<Json> -> Option<SubscriptionTier>,
                    eventType: Option<Json>, data: Option<Json>): Outcome
  {
    if !(eventType.Some? && eventType.value.JStr? && eventType.value.s in DataEvents) then Wrote(users)
    else if data.None? || data.value.JNull? then Raised
    else
      var e := eventType.value.s;
      var d := data.value;
      if e == "checkout.session.completed" then OnCheckoutCompleted(users, d)
      else if e == "subscription.created" || e == "subscription.activated" then
        OnSubscriptionStarted(users, tierOf(Field(d, "product_id")), d)
      else if e == "subscription.updated" then OnSubscriptionUpdated(users, tierOf(Field(d, "product_id")), d)
      else if e == "subscription.canceled" then OnSubscriptionCanceled(users, d)
      else OnCustomerCreated(users, d)
  }

  /** The switch as written: period-qualified keys reach the tier column. */
  function HandleEventAsWritten(users: seq<User>, p: Products, eventType: Option<Json>, data: Option<Json>): Outcome
  {
    Dispatch(users, (v: Option<Json>) => WrittenTier(p, v), eventType, data)
  }

  /** The switch with the corrected tier rule; the route below uses this one. */
  function HandleEvent(users: seq<User>, p: Products, eventType: Option<Json>, data: Option<Json>): Outcome
  {
    Dispatch(users, (v: Option<Json>) => Some(TierForProduct(p, v)), eventType, data)
  }

  // ---------------------------------------------------------------------
  // The route

  /** The raw body as received, and the request's headers. */
  datatype Delivery = Delivery(request: Request, body: string)

  datatype WebhookStep = WebhookStep(response: Response, users: seq<User>)

  const MissingSignature := PlainError("Missing signature", 400)
  const BadSignature := PlainError("Invalid signature", 401)
  const ProcessingFailed := PlainError("Webhook processing failed", 500)
  const Received := JsonResponse(JObj(map["received" := JBool(true)]), 200)

  /**
   * `hmac(secret, body)` is the hex HMAC-SHA256 digest and `parse` is
   * `JSON.parse` (None when it throws); neither is part of this model.  An
   * unset secret makes the digest throw outside any handler.
   */
  function Receive(users: seq<User>, secret: Option<string>, p: Products, d: Delivery,
                   hmac: (string, string) -> string, parse: string -> Option<Json>): WebhookStep
  {
    var signature := Header(d.request, "polar-signature");
    if signature.None? || signature.value == "" then WebhookStep(MissingSignature, users)
    else if secret.None? then WebhookStep(Unhandled, users)
    else if signature.value != hmac(secret.value, d.body) then WebhookStep(BadSignature, users)
    else match parse(d.body)
      case None => WebhookStep(Unhandled, users)
      case Some(event) =>
        if event.JNull? then WebhookStep(Unhandled, users)
        else match HandleEvent(users, p, Field(event, "event_type"), Field(event, "data"))
          case Raised => WebhookStep(ProcessingFailed, users)
          case Wrote(after) => WebhookStep(Received, after)
  }

  /**
   * The route with the corrected tier rule of `HandleEvent`.  As written,
   * the four period-qualified PRO and BUSINESS products make the update
   * throw: `HandleEventAsWritten` and `MonthlyProPurchaseRejected` state that.
   */
  method WebhookRoute(db: Db, secret: Option<string>, p: Products, d: Delivery,
                      hmac: (string, string) -> string, parse: string -> Option<Json>) returns (resp: Response)
    modifies db`users
    ensures WebhookStep(resp, db.users) == Receive(old(db.users), secret, p, d, hmac, parse)
  {
    var signature := Header(d.request, "polar-signature");
    if signature.None? || signature.value == "" {
      return MissingSignature;
    }
    if secret.None? {
      return Unhandled;
    }
    if signature.value != hmac(secret.value, d.body) {
      return BadSignature;
    }
    var event := parse(d.body);
    if event.None? || event.value.JNull? {
      return Unhandled;
    }
    var outcome := HandleEvent(db.users, p, Field(event.value, "event_type"), Field(event.value, "data"));
    if outcome.Raised? {
      return ProcessingFailed;
    }
    db.users := outcome.users;
    resp := Received;
  }

  // ---------------------------------------------------------------------
  // Properties

  /** Only a body whose digest matches the signature can change any row. */
  lemma UnsignedWritesNothing(users: seq<User>, secret: Option<string>, p: Products, d: Delivery,
                              hmac: (string, string) -> string, parse: string -> Option<Json>)
    ensures var s := Receive(users, secret, p, d, hmac, parse);
      s.users != users ==>
        && secret.Some?
        && Header(d.request, "polar-signature") == Some(hmac(secret.value, d.body))
        && s.response == Received
  {
  }

  /** As written, buying the monthly PRO product fails the event with 500 and leaves every row as it was. */
  lemma MonthlyProPurchaseRejected(users: seq<User>, p: Products, product: string, customer: string)
    requires p.proMonthly == Some(product)
    ensures HandleEventAsWritten(users, p, Some(JStr("subscription.created")),
                                 Some(JObj(map["product_id" := JStr(product), "customer_id" := JStr(customer)]))) == Raised
  {
    var v := Some(JStr(product));
    assert TableKey(p, v) == Some("PRO_MONTHLY");
    assert TierFromName("PRO_MONTHLY") == None;
  }

  /** With the corrected rule the same event upgrades every row linked to the customer to PRO. */
  lemma MonthlyProPurchaseUpgrades(users: seq<User>, p: Products, product: string, customer: string)
    requires p.proMonthly == Some(product)
    ensures var o := HandleEvent(users, p, Some(JStr("subscription.created")),
                                 Some(JObj(map["product_id" := JStr(product), "customer_id" := JStr(customer)])));
      && o.Wrote? && |o.users| == |users|
      && forall i :: 0 <= i < |users| ==>
           o.users[i] == if users[i].polarCustomerId == Some(customer)
                         then users[i].(subscriptionTier := Pro, subscriptionStatus := Active)
                         else users[i]
  {
    assert FilterOf(Some(JStr(customer))) == Equals(customer);
  }

  /** The corrected rule changes nothing where the written key already was a tier name. */
  lemma CorrectionKeepsValidTiers(p: Products, v: Option<Json>)
    ensures WrittenTier(p, v).Some? ==> WrittenTier(p, v) == Some(TierForProduct(p, v))
    ensures WrittenTier(p, v).None? <==>
      TableKey(p, v).Some? && TableKey(p, v).value in ["PRO_MONTHLY", "PRO_ANNUAL", "BUSINESS_MONTHLY", "BUSINESS_ANNUAL"]
  {
  }

  /** A cancellation whose payload has no `customer_id` downgrades every user in the table. */
  lemma AbsentCustomerCancelsEveryone(users: seq<User>, p: Products)
    ensures var o := HandleEvent(users, p, Some(JStr("subscription.canceled")), Some(JObj(map[])));
      && o.Wrote? && |o.users| == |users|
      && forall i :: 0 <= i < |users| ==> o.users[i] == users[i].(subscriptionTier := Free, subscriptionStatus := Cancelled)
  {
    assert FilterOf(Field(JObj(map[]), "customer_id")) == AnyRow;
  }

  /** Unlike the Svix route, a cancellation here also drops the tier. */
  lemma CancellationDowngrades(users: seq<User>, p: Products, customer: string, i: nat)
    requires i < |users| && users[i].polarCustomerId == Some(customer)
    ensures var o := HandleEvent(users, p, Some(JStr("subscription.canceled")),
                                 Some(JObj(map["customer_id" := JStr(customer)])));
      o.Wrote? && o.users[i].subscriptionTier == Free && o.users[i].subscriptionStatus == Cancelled
  {
    assert FilterOf(Some(JStr(customer))) == Equals(customer);
  }

  /** A completed checkout without a customer email links nobody. */
  lemma CheckoutWithoutEmailWritesNothing(users: seq<User>, p: Products, data: Json)
    requires !data.JNull? && !Truthy(Field(data, "customer_email"))
    ensures HandleEvent(users, p, Some(JStr("checkout.session.completed")), Some(data)) == Wrote(users)
    ensures HandleEventAsWritten(users, p, Some(JStr("checkout.session.completed")), Some(data)) == Wrote(users)
  {
  }

  /**
   * subscription.updated sets, on every row linked to the customer, the
   * product's tier and the mapped status (trialing included), and changes
   * no other row.
   */
  lemma UpdatedSetsTierAndStatus(users: seq<User>, p: Products, customer: string, product: string, status: string)
    ensures var o := HandleEvent(users, p, Some(JStr("subscription.updated")),
                                 Some(JObj(map["customer_id" := JStr(customer), "product_id" := JStr(product),
                                               "status" := JStr(status)])));
      && o.Wrote? && |o.users| == |users|
      && forall i :: 0 <= i < |users| ==>
           o.users[i] == if users[i].polarCustomerId == Some(customer)
                         then users[i].(subscriptionTier := TierForProduct(p, Some(JStr(product))),
                                        subscriptionStatus := StatusFromProvider(status))
                         else users[i]
  {
    var d := JObj(map["customer_id" := JStr(customer), "product_id" := JStr(product), "status" := JStr(status)]);
    assert Field(d, "customer_id") == Some(JStr(customer));
    assert Field(d, "product_id") == Some(JStr(product));
    assert Field(d, "status") == Some(JStr(status));
    assert FilterOf(Some(JStr(customer))) == Equals(customer);
  }

  /** Events outside the six with data are acknowledged without a write, even without data. */
  lemma OtherEventsIgnored(users: seq<User>, p: Products, e: string, data: Option<Json>)
    requires e !in DataEvents
    ensures HandleEvent(users, p, Some(JStr(e)), data) == Wrote(users)
    ensures HandleEventAsWritten(users, p, Some(JStr(e)), data) == Wrote(users)
  {
  }
}
