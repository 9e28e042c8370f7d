/**
 * POST /api/polar/webhook: billing events signed in the Svix scheme.  The
 * secret and the three signature headers are checked first, the signature
 * itself by the Svix library; then the event type selects which user row
 * is found and what is written to it.  Payload fields are used as they
 * come, so a missing field drops its condition from a query.
 */
module PolarWebhook {
  import opened Wrappers
  import opened Http
  import opened Schema
  import opened Rows
  import opened Stores
  import opened InternalAuth
  import opened Billing

  /** The product ids this route reads, one per tier; None when unset. */
  datatype WebhookProducts = WebhookProducts(pro: Option<string>, business: Option<string>, apiStarter: Option<string>,
                                             apiGrowth: Option<string>, apiEnterprise: Option<string>)

  function WebhookTier(p: WebhookProducts, v: Option<Json>): (t: Option<SubscriptionTier>)
    ensures t.Some? ==> t.value != Free
    ensures t == Some(Pro) <==> SameProduct(v, p.pro)
    ensures t.None? <==> !SameProduct(v, p.pro) && !SameProduct(v, p.business) && !SameProduct(v, p.apiStarter)
                         && !SameProduct(v, p.apiGrowth) && !SameProduct(v, p.apiEnterprise)
  {
    if SameProduct(v, p.pro) then Some(Pro)
    else if SameProduct(v, p.business) then Some(Business)
    else if SameProduct(v, p.apiStarter) then Some(ApiStarter)
    else if SameProduct(v, p.apiGrowth) then Some(ApiGrowth)
    else if SameProduct(v, p.apiEnterprise) then Some(ApiEnterprise)
    else None
  }

  /** This route's status table: it has no entry for "trialing". */
  function WebhookStatus(v: Option<Json>): (s: SubscriptionStatus)
    ensures s == Active <==> v == Some(JStr("active"))
    ensures s != Trialing
  {
    if v == Some(JStr("active")) then Active
    else if v == Some(JStr("canceled")) then Cancelled
    else if v == Some(JStr("past_due")) then PastDue
    else Inactive
  }

  // ---------------------------------------------------------------------
  // The event handlers; `data` is known to be neither absent nor null.

  function OnCheckoutUpdated(users: seq<User>, p: WebhookProducts, data: Json): Outcome
  {
    if Field(data, "status") != Some(JStr("paid")) then Wrote(users)
    else match FirstWhere(users, OnRequiredColumn(FilterOf(Field(data, "customer_email"))), EmailColumn)
      case None => Raised
      case Some(None) => Wrote(users)
      case Some(Some(k)) =>
        match WebhookTier(p, Field(data, "product_id"))
        case None => Wrote(users)
        case Some(t) =>
          var a := AssignOf(Field(data, "customer_id"));
          if a.BadAssign? then Raised
          else Wrote(users[k := users[k].(subscriptionTier := t, subscriptionStatus := Active,
                                          polarCustomerId := Assigned(a, users[k].polarCustomerId))])
  }

  /** subscription.created, subscription.active and subscription.updated. */
  function OnSubscriptionChanged(users: seq<User>, p: WebhookProducts, data: Json): Outcome
  {
    match WebhookTier(p, Field(data, "product_id"))
    case None => Wrote(users)
    case Some(t) =>
      match FirstWhere(users, FilterOf(Field(data, "customer_id")), CustomerColumn)
      case None => Raised
      case Some(None) => Wrote(users)
      case Some(Some(k)) =>
        var a := AssignOf(Field(data, "id"));
        if a.BadAssign? then Raised
        else Wrote(users[k := users[k].(subscriptionTier := t, subscriptionStatus := WebhookStatus(Field(data, "status")),
                                        polarSubscriptionId := Assigned(a, users[k].polarSubscriptionId))])
  }

  /** Set the status of the first row holding the subscription named by `subscription`. */
  function SetStatusBySubscription(users: seq<User>, subscription: Option<Json>, s: SubscriptionStatus): Outcome
  {
    match FirstWhere(users, FilterOf(subscription), SubscriptionColumn)
    case None => Raised
    case Some(None) => Wrote(users)
    case Some(Some(k)) => Wrote(users[k := users[k].(subscriptionStatus := s)])
  }

  function OnCustomerCreated(users: seq<User>, data: Json): Outcome
  {
    match FirstWhere(users, OnRequiredColumn(FilterOf(Field(data, "email"))), EmailColumn)
    case None => Raised
    case Some(None) => Wrote(users)
    case Some(Some(k)) =>
      if users[k].polarCustomerId.Some? && users[k].polarCustomerId.value != "" then Wrote(users)
      else
        var a := AssignOf(Field(data, "id"));
        if a.BadAssign? then Raised
        else Wrote(users[k := users[k].(polarCustomerId := Assigned(a, users[k].polarCustomerId))])
  }

  function OnOrderPaid(users: seq<User>, data: Json): Outcome
  {
    if !Truthy(Field(data, "subscription_id")) then Wrote(users)
    else SetStatusBySubscription(users, Field(data, "subscription_id"), Active)
  }

  const HandledEvents := ["checkout.updated", "subscription.created", "subscription.active", "subscription.updated",
                          "subscription.canceled", "subscription.revoked", "subscription.past_due",
                          "customer.created", "order.paid"]

  function HandleEvent(users: seq<User>, p: WebhookProducts, eventType: Option<Json>, data: Option<Json>): Outcome
  {
    if !(eventType.Some? && eventType.value.JStr? && eventType.value.s in HandledEvents) then Wrote(users)
    else if data.None? || data.value.JNull? then Raised
    else
      var e := eventType.value.s;
      var d := data.value;
      if e == "checkout.updated" then OnCheckoutUpdated(users, p, d)
      else if e == "subscription.created" || e == "subscription.active" || e == "subscription.updated" then
        OnSubscriptionChanged(users, p, d)
      else if e == "subscription.canceled" || e == "subscription.revoked" then
        SetStatusBySubscription(users, Field(d, "id"), Cancelled)
      else if e == "subscription.past_due" then SetStatusBySubscription(users, Field(d, "id"), PastDue)
      else if e == "customer.created" then OnCustomerCreated(users, d)
      else OnOrderPaid(users, d)
  }

  // ---------------------------------------------------------------------
  // The route

  /**
   * The Svix signature check, which is not part of this model: given the
   * secret, the re-serialised payload and the three headers it yields the
   * event, or None when it throws.
   */
  type Verifier = (string, Json, string, string, string) -> Option<Json>

  datatype Delivery = Delivery(request: Request, payload: Option<Json>)

  datatype WebhookStep = WebhookStep(response: Response, users: seq<User>)

  const NoSecret := PlainError("Webhook secret not configured", 500)
  const MissingHeaders := PlainError("Missing webhook headers", 400)
  const BadSignature := PlainError("Invalid signature", 401)
  const ProcessingFailed := PlainError("Internal server error", 500)
  const Received := JsonResponse(JObj(map["received" := JBool(true)]), 200)

  predicate Present(h: Option<string>)
  {
    h.Some? && h.value != ""
  }

  function Receive(users: seq<User>, secret: Option<string>, p: WebhookProducts, d: Delivery, verify: Verifier): WebhookStep
  {
    var id := Header(d.request, "svix-id");
    var timestamp := Header(d.request, "svix-timestamp");
    var signature := Header(d.request, "svix-signature");
    if !Present(secret) then WebhookStep(NoSecret, users)
    else if !(Present(id) && Present(timestamp) && Present(signature)) then WebhookStep(MissingHeaders, users)
    else if d.payload.None? then WebhookStep(Unhandled, users)
    else match verify(secret.value, d.payload.value, id.value, timestamp.value, signature.value)
      case None => WebhookStep(BadSignature, users)
      case Some(evt) =>
        if evt.JNull? then WebhookStep(Unhandled, users)
        else match HandleEvent(users, p, Field(evt, "type"), Field(evt, "data"))
          case Raised => WebhookStep(ProcessingFailed, users)
          case Wrote(after) => WebhookStep(Received, after)
  }

  method WebhookRoute(db: Db, secret: Option<string>, p: WebhookProducts, d: Delivery, verify: Verifier)
    returns (resp: Response)
    modifies db`users
    ensures WebhookStep(resp, db.users) == Receive(old(db.users), secret, p, d, verify)
  {
    if !Present(secret) {
      return NoSecret;
    }
    var id := Header(d.request, "svix-id");
    var timestamp := Header(d.request, "svix-timestamp");
    var signature := Header(d.request, "svix-signature");
    if !(Present(id) && Present(timestamp) && Present(signature)) {
      return MissingHeaders;
    }
    if d.payload.None? {
      return Unhandled;
    }
    var evt := verify(secret.value, d.payload.value, id.value, timestamp.value, signature.value);
    if evt.None? {
      return BadSignature;
    }
    if evt.value.JNull? {
      return Unhandled;
    }
    var outcome := HandleEvent(db.users, p, Field(evt.value, "type"), Field(evt.value, "data"));
    if outcome.Raised? {
      return ProcessingFailed;
    }
    db.users := outcome.users;
    resp := Received;
  }

  // ---------------------------------------------------------------------
  // Properties

  /** Rows change only for a verified event, and only when the route answers 200. */
  lemma WritesOnlyWhenReceived(users: seq<User>, secret: Option<string>, p: WebhookProducts, d: Delivery, verify: Verifier)
    ensures var s := Receive(users, secret, p, d, verify);
      s.users != users ==>
        && s.response == Received
        && Present(secret) && d.payload.Some?
        && verify(secret.value, d.payload.value, Header(d.request, "svix-id").value,
                  Header(d.request, "svix-timestamp").value, Header(d.request, "svix-signature").value).Some?
  {
  }

  /** `after` has the rows of `before`, with at most one of them changed. */
  predicate AtMostOneRowChanged(before: seq<User>, after: seq<User>)
  {
    |after| == |before| &&
    forall j, k :: 0 <= j < |before| && 0 <= k < |before| && j != k && after[j] != before[j] ==> after[k] == before[k]
  }

  lemma PointUpdateChangesOneRow(users: seq<User>, k: nat, u: User)
    requires k < |users|
    ensures AtMostOneRowChanged(users, users[k := u])
  {
  }

  lemma CheckoutChangesOneRow(users: seq<User>, p: WebhookProducts, data: Json)
    ensures var o := OnCheckoutUpdated(users, p, data); o.Wrote? ==> AtMostOneRowChanged(users, o.users)
  {
    var o := OnCheckoutUpdated(users, p, data);
    if o.Wrote? && o.users != users {
      var k := FirstWhere(users, OnRequiredColumn(FilterOf(Field(data, "customer_email"))), EmailColumn).value.value;
      PointUpdateChangesOneRow(users, k, o.users[k]);
      assert o.users == users[k := o.users[k]];
    }
  }

  lemma SubscriptionChangesOneRow(users: seq<User>, p: WebhookProducts, data: Json)
    ensures var o := OnSubscriptionChanged(users, p, data); o.Wrote? ==> AtMostOneRowChanged(users, o.users)
  {
    var o := OnSubscriptionChanged(users, p, data);
    if o.Wrote? && o.users != users {
      var k := FirstWhere(users, FilterOf(Field(data, "customer_id")), CustomerColumn).value.value;
      PointUpdateChangesOneRow(users, k, o.users[k]);
      assert o.users == users[k := o.users[k]];
    }
  }

  lemma StatusChangesOneRow(users: seq<User>, subscription: Option<Json>, st: SubscriptionStatus)
    ensures var o := SetStatusBySubscription(users, subscription, st); o.Wrote? ==> AtMostOneRowChanged(users, o.users)
  {
    var o := SetStatusBySubscription(users, subscription, st);
    if o.Wrote? && o.users != users {
      var k := FirstWhere(users, FilterOf(subscription), SubscriptionColumn).value.value;
      PointUpdateChangesOneRow(users, k, o.users[k]);
      assert o.users == users[k := o.users[k]];
    }
  }

  lemma CustomerChangesOneRow(users: seq<User>, data: Json)
    ensures var o := OnCustomerCreated(users, data); o.Wrote? ==> AtMostOneRowChanged(users, o.users)
  {
    var o := OnCustomerCreated(users, data);
    if o.Wrote? && o.users != users {
      var k := FirstWhere(users, OnRequiredColumn(FilterOf(Field(data, "email"))), EmailColumn).value.value;
      PointUpdateChangesOneRow(users, k, o.users[k]);
      assert o.users == users[k := o.users[k]];
    }
  }

  /** Every handler writes at most one row and never adds or drops one. */
  lemma {:induction false} HandlersWriteOneRow(users: seq<User>, p: WebhookProducts, eventType: Option<Json>, data: Option<Json>)
    ensures var o := HandleEvent(users, p, eventType, data); o.Wrote? ==> AtMostOneRowChanged(users, o.users)
  {
    if eventType.Some? && eventType.value.JStr? && eventType.value.s in HandledEvents && data.Some? && !data.value.JNull? {
      var e := eventType.value.s;
      var d := data.value;
      if e == "checkout.updated" {
        CheckoutChangesOneRow(users, p, d);
      } else if e == "subscription.created" || e == "subscription.active" || e == "subscription.updated" {
        SubscriptionChangesOneRow(users, p, d);
      } else if e == "subscription.canceled" || e == "subscription.revoked" {
        StatusChangesOneRow(users, Field(d, "id"), Cancelled);
      } else if e == "subscription.past_due" {
        StatusChangesOneRow(users, Field(d, "id"), PastDue);
      } else if e == "customer.created" {
        CustomerChangesOneRow(users, d);
      } else if Truthy(Field(d, "subscription_id")) {
        StatusChangesOneRow(users, Field(d, "subscription_id"), Active);
      }
    }
  }

  /** Unknown event types are acknowledged and write nothing, whatever the data. */
  lemma UnknownEventIgnored(users: seq<User>, p: WebhookProducts, e: string, data: Option<Json>)
    requires e !in HandledEvents
    ensures HandleEvent(users, p, Some(JStr(e)), data) == Wrote(users)
  {
  }

  /** A known event without data fails with 500 and writes nothing. */
  lemma MissingDataFails(users: seq<User>, p: WebhookProducts, e: string)
    requires e in HandledEvents
    ensures HandleEvent(users, p, Some(JStr(e)), None) == Raised
    ensures HandleEvent(users, p, Some(JStr(e)), Some(JNull)) == Raised
  {
  }

  /**
   * A cancellation touches only the status of the first row holding the
   * subscription id; the tier stays, so a cancelled paying tier keeps its
   * limits until another event changes it.
   */
  lemma CancellationKeepsTier(users: seq<User>, p: WebhookProducts, subscriptionId: string)
    requires exists k :: 0 <= k < |users| && users[k].polarSubscriptionId == Some(subscriptionId)
    ensures var o := HandleEvent(users, p, Some(JStr("subscription.canceled")),
                                 Some(JObj(map["id" := JStr(subscriptionId)])));
      && o.Wrote?
      && exists k :: 0 <= k < |users| && users[k].polarSubscriptionId == Some(subscriptionId)
           && o.users == users[k := users[k].(subscriptionStatus := Cancelled)]
  {
    var f := FilterOf(Some(JStr(subscriptionId)));
    assert f == Equals(subscriptionId);
    var r := FirstWhere(users, f, SubscriptionColumn);
    var w :| 0 <= w < |users| && users[w].polarSubscriptionId == Some(subscriptionId);
    assert FilterMatches(f, SubscriptionColumn(users[w]));
    assert r.Some? && r.value.Some?;
  }

  /**
   * A subscription event without `product_id` or `customer_id` still
   * upgrades someone when the PRO product variable is unset: the missing
   * product equals the unset variable and the missing customer id filters
   * nothing, so the first row of the table becomes PRO.
   */
  lemma AbsentFieldsUpgradeFirstRow(users: seq<User>, p: WebhookProducts)
    requires |users| > 0 && p.pro.None?
    ensures HandleEvent(users, p, Some(JStr("subscription.created")), Some(JObj(map[])))
         == Wrote(users[0 := users[0].(subscriptionTier := Pro, subscriptionStatus := Inactive)])
  {
    assert FilterOf(Field(JObj(map[]), "customer_id")) == AnyRow;
    assert FirstWhere(users, AnyRow, CustomerColumn) == Some(Some(0));
  }

  /** checkout.updated writes nothing unless the checkout is paid. */
  lemma UnpaidCheckoutIgnored(users: seq<User>, p: WebhookProducts, data: Json)
    requires !data.JNull? && Field(data, "status") != Some(JStr("paid"))
    ensures HandleEvent(users, p, Some(JStr("checkout.updated")), Some(data)) == Wrote(users)
  {
  }

  /**
   * A paid checkout for a known product upgrades the first row with the
   * customer's email: the tier, ACTIVE and the customer id.
   */
  lemma PaidCheckoutUpgrades(users: seq<User>, p: WebhookProducts, email: string, product: string, customer: string, k: nat)
    requires k < |users| && users[k].email == email && forall j :: 0 <= j < k ==> users[j].email != email
    requires p.pro == Some(product)
    ensures HandleEvent(users, p, Some(JStr("checkout.updated")),
                        Some(JObj(map["status" := JStr("paid"), "customer_email" := JStr(email),
                                      "product_id" := JStr(product), "customer_id" := JStr(customer)])))
         == Wrote(users[k := users[k].(subscriptionTier := Pro, subscriptionStatus := Active, polarCustomerId := Some(customer))])
  {
    var d := JObj(map["status" := JStr("paid"), "customer_email" := JStr(email),
                      "product_id" := JStr(product), "customer_id" := JStr(customer)]);
    assert Field(d, "customer_email") == Some(JStr(email));
    assert Field(d, "product_id") == Some(JStr(product));
    assert Field(d, "customer_id") == Some(JStr(customer));
    assert FilterMatches(Equals(email), EmailColumn(users[k]));
    assert FirstWhere(users, Equals(email), EmailColumn) == Some(Some(k));
  }

  /**
   * The events matched by subscription id change the status of at most one
   * row and nothing else: CANCELLED for a cancellation or revocation,
   * PAST_DUE, and ACTIVE for a paid order.
   */
  lemma StatusEventsChangeOnlyStatus(users: seq<User>, p: WebhookProducts, e: string, data: Option<Json>)
    requires e in ["subscription.canceled", "subscription.revoked", "subscription.past_due", "order.paid"]
    ensures var o := HandleEvent(users, p, Some(JStr(e)), data);
      var s := if e == "subscription.past_due" then PastDue else if e == "order.paid" then Active else Cancelled;
      o.Wrote? ==> (|o.users| == |users| &&
        forall j :: 0 <= j < |users| ==> o.users[j] == users[j] || o.users[j] == users[j].(subscriptionStatus := s))
  {
  }

  /** customer.created links at most one row, one with no customer id yet, and touches nothing else in it. */
  lemma CustomerCreatedLinksUnlinkedOnly(users: seq<User>, p: WebhookProducts, data: Option<Json>)
    ensures var o := HandleEvent(users, p, Some(JStr("customer.created")), data);
      o.Wrote? ==> (|o.users| == |users| &&
        forall j :: 0 <= j < |users| && o.users[j] != users[j] ==>
          && (users[j].polarCustomerId.None? || users[j].polarCustomerId == Some(""))
          && o.users[j] == users[j].(polarCustomerId := o.users[j].polarCustomerId))
  {
  }

  /** This route maps a trialing subscription to INACTIVE, where the sync route maps it to TRIALING. */
  lemma TrialingReadsInactive()
    ensures WebhookStatus(Some(JStr("trialing"))) == Inactive
    ensures StatusFromProvider("trialing") == Trialing
  {
  }
}
