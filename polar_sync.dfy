/**
 * POST /api/polar/sync: pull the caller's subscription from the billing
 * provider.  With a linked customer the chosen subscription's product
 * decides the tier; without one the customer is first looked up by email
 * and linked.
 */
module PolarSync {
  import opened Wrappers
  import opened Http
  import opened Schema
  import opened Rows
  import opened Stores
  import opened InternalAuth
  import opened Billing

  datatype Provider = Provider(subscriptionsOf: string -> Reply<ProviderSub>, customersByEmail: string -> Reply<Customer>)

  datatype SyncStep = SyncStep(response: Response, users: seq<User>)

  function Failed(message: string): Response
  {
    JsonResponse(JObj(map["error" := JStr("Failed to sync subscription"), "details" := JStr(message)]), 500)
  }

  function SubscriptionFields(t: SubscriptionTier, sub: ProviderSub): User -> User
  {
    (u: User) => u.(subscriptionTier := t, subscriptionStatus := StatusFromProvider(sub.status), polarSubscriptionId := Some(sub.id))
  }

  function LinkCustomer(id: string): User -> User
  {
    (u: User) => u.(polarCustomerId := Some(id))
  }

  function Synced(t: SubscriptionTier, sub: ProviderSub): Response
  {
    JsonResponse(JObj(map["success" := JBool(true), "tier" := JStr(TierName(t)), "status" := JStr(sub.status),
                          "currentPeriodEnd" := OptStr(sub.currentPeriodEnd)]), 200)
  }

  function UnknownProduct(productId: string): Response
  {
    JsonResponse(JObj(map["success" := JBool(false), "error" := JStr("Unknown product"), "productId" := JStr(productId)]), 400)
  }

  function Unchanged(u: User): Response
  {
    JsonResponse(JObj(map["success" := JBool(true), "tier" := JStr(TierName(u.subscriptionTier)),
                          "status" := JStr(StatusName(u.subscriptionStatus)), "polarCustomerId" := OptStr(u.polarCustomerId),
                          "message" := JStr("No active subscription found in Polar")]), 200)
  }

  function SyncedViaEmail(t: SubscriptionTier, sub: ProviderSub): Response
  {
    JsonResponse(JObj(map["success" := JBool(true), "tier" := JStr(TierName(t)), "status" := JStr(sub.status),
                          "foundViaEmail" := JBool(true)]), 200)
  }

  function LinkedOnly(customerId: string): Response
  {
    JsonResponse(JObj(map["success" := JBool(true), "foundViaEmail" := JBool(true),
                          "message" := JStr("Customer found, but no active subscription"),
                          "polarCustomerId" := JStr(customerId)]), 200)
  }

  const NoCustomer := JsonResponse(JObj(map["success" := JBool(false), "error" := JStr("No Polar customer found"),
                                            "message" := JStr("Please complete checkout again or contact support"),
                                            "polarCustomerId" := JNull]), 404)

  predicate Linked(u: User)
  {
    u.polarCustomerId.Some? && u.polarCustomerId.value != ""
  }

  /** The linked path: the chosen subscription's product sets the tier; no usable reply leaves the record. */
  function SyncLinked(users: seq<User>, u: User, products: Products, reply: Reply<ProviderSub>): SyncStep
  {
    match reply
    case Threw(msg) => SyncStep(Failed(msg), users)
    case NotOk => SyncStep(Unchanged(u), users)
    case Ok(subs) =>
      if |subs| == 0 then SyncStep(Unchanged(u), users)
      else
        var sub := subs[ChooseSubscription(subs)];
        match SyncTier(products, sub.productId)
        case None => SyncStep(UnknownProduct(sub.productId), users)
        case Some(t) => SyncStep(Synced(t, sub), UpdateWhere(users, UserIdIs(u.id), SubscriptionFields(t, sub)))
  }

  /** The email path: link the first customer found, then try its subscriptions. */
  function SyncByEmail(users: seq<User>, u: User, products: Products, provider: Provider): SyncStep
  {
    match provider.customersByEmail(u.email)
    case Threw(msg) => SyncStep(Failed(msg), users)
    case NotOk => SyncStep(NoCustomer, users)
    case Ok(customers) =>
      if |customers| == 0 then SyncStep(NoCustomer, users)
      else
        var c := customers[0];
        var linked := UpdateWhere(users, UserIdIs(u.id), LinkCustomer(c.id));
        match provider.subscriptionsOf(c.id)
        case Threw(msg) => SyncStep(Failed(msg), linked)
        case NotOk => SyncStep(LinkedOnly(c.id), linked)
        case Ok(subs) =>
          if |subs| == 0 then SyncStep(LinkedOnly(c.id), linked)
          else
            var sub := subs[ChooseSubscription(subs)];
            match SyncTier(products, sub.productId)
            case None => SyncStep(LinkedOnly(c.id), linked)
            case Some(t) => SyncStep(SyncedViaEmail(t, sub), UpdateWhere(linked, UserIdIs(u.id), SubscriptionFields(t, sub)))
  }

  function Sync(users: seq<User>, session: Option<string>, products: Products, provider: Provider): SyncStep
  {
    match AuthenticatePlain(users, session)
    case Failure(resp) => SyncStep(resp, users)
    case Success(i) =>
      var u := users[i];
      if Linked(u) then SyncLinked(users, u, products, provider.subscriptionsOf(u.polarCustomerId.value))
      else SyncByEmail(users, u, products, provider)
  }

  method SyncRoute(db: Db, session: Option<string>, products: Products, provider: Provider) returns (resp: Response)
    modifies db`users
    ensures SyncStep(resp, db.users) == Sync(old(db.users), session, products, provider)
  {
    var caller := AuthenticatePlain(db.users, session);
    if caller.Failure? {
      return caller.error;
    }
    var u := db.users[caller.value];
    if Linked(u) {
      var reply := provider.subscriptionsOf(u.polarCustomerId.value);
      if reply.Threw? {
        return Failed(reply.message);
      }
      if reply.NotOk? || |reply.items| == 0 {
        return Unchanged(u);
      }
      var sub := reply.items[ChooseSubscription(reply.items)];
      var tier := SyncTier(products, sub.productId);
      if tier.None? {
        return UnknownProduct(sub.productId);
      }
      db.users := UpdateWhere(db.users, UserIdIs(u.id), SubscriptionFields(tier.value, sub));
      return Synced(tier.value, sub);
    }
    var found := provider.customersByEmail(u.email);
    if found.Threw? {
      return Failed(found.message);
    }
    if found.NotOk? || |found.items| == 0 {
      return NoCustomer;
    }
    var c := found.items[0];
    db.users := UpdateWhere(db.users, UserIdIs(u.id), LinkCustomer(c.id));
    var reply := provider.subscriptionsOf(c.id);
    if reply.Threw? {
      return Failed(reply.message);
    }
    if reply.NotOk? || |reply.items| == 0 {
      return LinkedOnly(c.id);
    }
    var sub := reply.items[ChooseSubscription(reply.items)];
    var tier := SyncTier(products, sub.productId);
    if tier.None? {
      return LinkedOnly(c.id);
    }
    db.users := UpdateWhere(db.users, UserIdIs(u.id), SubscriptionFields(tier.value, sub));
    resp := SyncedViaEmail(tier.value, sub);
  }

  // ---------------------------------------------------------------------
  // Properties

  /**
   * A linked caller's record changes only on a known product: then it
   * takes the tier, the mapped status and the subscription id of the
   * chosen subscription, and no other row changes.
   */
  lemma LinkedSync(users: seq<User>, session: Option<string>, products: Products, provider: Provider)
    requires UniqueUserIds(users)
    requires AuthenticatePlain(users, session).Success?
    requires Linked(users[AuthenticatePlain(users, session).value])
    ensures var i := AuthenticatePlain(users, session).value;
      var s := Sync(users, session, products, provider);
      var reply := provider.subscriptionsOf(users[i].polarCustomerId.value);
      && |s.users| == |users|
      && (forall j :: 0 <= j < |users| && j != i ==> s.users[j] == users[j])
      && (s.users != users ==>
           && reply.Ok? && |reply.items| > 0
           && var sub := reply.items[ChooseSubscription(reply.items)];
              && SyncTier(products, sub.productId).Some?
              && s.users[i] == SubscriptionFields(SyncTier(products, sub.productId).value, sub)(users[i])
              && s.response.status == 200)
  {
    var i := AuthenticatePlain(users, session).value;
    forall j | 0 <= j < |users| && j != i ensures users[j].id != users[i].id {
    }
  }

  /** An unknown product is refused with 400 and nothing is written. */
  lemma UnknownProductWritesNothing(users: seq<User>, session: Option<string>, products: Products, provider: Provider)
    requires AuthenticatePlain(users, session).Success?
    requires var u := users[AuthenticatePlain(users, session).value];
      && Linked(u) && provider.subscriptionsOf(u.polarCustomerId.value).Ok?
      && var subs := provider.subscriptionsOf(u.polarCustomerId.value).items;
         |subs| > 0 && SyncTier(products, subs[ChooseSubscription(subs)].productId).None?
    ensures Sync(users, session, products, provider).users == users
    ensures Sync(users, session, products, provider).response.status == 400
  {
  }

  /** Without a linked customer and with no customer found, the route is 404 and writes nothing. */
  lemma NoCustomerWritesNothing(users: seq<User>, session: Option<string>, products: Products, provider: Provider)
    requires AuthenticatePlain(users, session).Success?
    requires var u := users[AuthenticatePlain(users, session).value];
      && !Linked(u) && (provider.customersByEmail(u.email) == NotOk ||
                        provider.customersByEmail(u.email) == Ok([]))
    ensures Sync(users, session, products, provider) == SyncStep(NoCustomer, users)
  {
  }

  /** A customer found by email is linked before its subscriptions are read, whatever they turn out to be. */
  lemma EmailMatchIsLinked(users: seq<User>, session: Option<string>, products: Products, provider: Provider)
    requires UniqueUserIds(users)
    requires AuthenticatePlain(users, session).Success?
    requires var u := users[AuthenticatePlain(users, session).value];
      && !Linked(u) && provider.customersByEmail(u.email).Ok? && |provider.customersByEmail(u.email).items| > 0
    ensures var i := AuthenticatePlain(users, session).value;
      var c := provider.customersByEmail(users[i].email).items[0];
      Sync(users, session, products, provider).users[i].polarCustomerId == Some(c.id)
  {
    var i := AuthenticatePlain(users, session).value;
    var u := users[i];
    var c := provider.customersByEmail(u.email).items[0];
    var linked := UpdateWhere(users, UserIdIs(u.id), LinkCustomer(c.id));
    assert linked[i].polarCustomerId == Some(c.id);
  }
}
