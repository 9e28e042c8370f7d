/**
 * GET /api/internal/user/profile: the caller's account data.  A caller
 * still on the free tier but linked to a billing customer first has its
 * subscription pulled from the provider; the record written is the first
 * row carrying that customer id, which need not be the caller's.
 */
module Profile {
  import opened Wrappers
  import opened Http
  import opened Schema
  import opened Rows
  import opened Stores
  import opened InternalAuth
  import opened Billing

  function CustomerIdIs(customerId: string): User -> bool
  {
    (u: User) => u.polarCustomerId == Some(customerId)
  }

  /** What the sync helper reports, and the rows it leaves. */
  datatype SyncOutcome = SyncOutcome(tier: Option<SubscriptionTier>, status: Option<string>, users: seq<User>)

  /**
   * The sync helper: on a known product, update the first row linked to
   * the customer; every failure (non-OK reply, thrown error, no product,
   * no row) reports no tier and writes nothing.
   */
  function SyncFromProvider(users: seq<User>, customerId: string, products: Products, reply: Reply<ProviderSub>): SyncOutcome
  {
    if reply.Ok? && |reply.items| > 0 then
      var sub := reply.items[ChooseSubscription(reply.items)];
      match ProfileTier(products, sub.productId)
      case None => SyncOutcome(None, None, users)
      case Some(t) =>
        match FindFirst(users, CustomerIdIs(customerId))
        case None => SyncOutcome(None, None, users)
        case Some(k) =>
          var updated := users[k := users[k].(subscriptionTier := t, subscriptionStatus := StatusFromProvider(sub.status),
                                               polarSubscriptionId := Some(sub.id))];
          SyncOutcome(Some(t), Some(sub.status), updated)
    else SyncOutcome(None, None, users)
  }

  predicate WantsSync(u: User)
  {
    u.polarCustomerId.Some? && u.polarCustomerId.value != "" && u.subscriptionTier == Free
  }

  function UserData(u: User): Json
  {
    JObj(map["subscriptionTier" := JStr(TierName(u.subscriptionTier)),
             "subscriptionStatus" := JStr(StatusName(u.subscriptionStatus)),
             "monthlyAnalysesUsed" := JInt(u.monthlyAnalysesUsed),
             "email" := JStr(u.email),
             "polarCustomerId" := OptStr(u.polarCustomerId),
             "polarSubscriptionId" := OptStr(u.polarSubscriptionId)])
  }

  function Served(u: User): Response
  {
    JsonResponse(JObj(map["success" := JBool(true), "data" := UserData(u)]), 200)
  }

  datatype ProfileStep = ProfileStep(response: Response, users: seq<User>)

  /**
   * The caller's record as first read, with only the tier and the status
   * replaced by those of the record refetched after a sync that reported a
   * tier.
   */
  function Shown(u: User, refetched: Option<User>): User
  {
    if refetched.Some? then u.(subscriptionTier := refetched.value.subscriptionTier,
                               subscriptionStatus := refetched.value.subscriptionStatus)
    else u
  }

  function GetProfile(users: seq<User>, session: Option<string>, products: Products,
                      subscriptionsOf: string -> Reply<ProviderSub>): ProfileStep
  {
    match Authenticate(users, session)
    case Failure(resp) => ProfileStep(resp, users)
    case Success(i) =>
      var u := users[i];
      if !WantsSync(u) then ProfileStep(Served(u), users)
      else
        var out := SyncFromProvider(users, u.polarCustomerId.value, products, subscriptionsOf(u.polarCustomerId.value));
        if out.tier.None? then ProfileStep(Served(u), out.users)
        else
          var again := UserByClerkId(out.users, session.value);
          ProfileStep(Served(Shown(u, if again.Some? then Some(out.users[again.value]) else None)), out.users)
  }

  method ProfileRoute(db: Db, session: Option<string>, products: Products, subscriptionsOf: string -> Reply<ProviderSub>)
    returns (resp: Response)
    modifies db`users
    ensures ProfileStep(resp, db.users) == GetProfile(old(db.users), session, products, subscriptionsOf)
  {
    var caller := Authenticate(db.users, session);
    if caller.Failure? {
      return caller.error;
    }
    var u := db.users[caller.value];
    if WantsSync(u) {
      var out := SyncFromProvider(db.users, u.polarCustomerId.value, products, subscriptionsOf(u.polarCustomerId.value));
      db.users := out.users;
      if out.tier.Some? {
        var again := UserByClerkId(db.users, session.value);
        if again.Some? {
          u := Shown(u, Some(db.users[again.value]));
        }
      }
    }
    resp := Served(u);
  }

  // ---------------------------------------------------------------------
  // Properties

  /** The helper writes at most one row, and only one linked to the customer. */
  lemma SyncWritesOneLinkedRow(users: seq<User>, customerId: string, products: Products, reply: Reply<ProviderSub>)
    ensures var out := SyncFromProvider(users, customerId, products, reply);
      && |out.users| == |users|
      && (out.tier.None? ==> out.users == users)
      && (forall j, k :: 0 <= j < k < |users| && out.users[j] != users[j] ==> out.users[k] == users[k])
      && (forall j :: 0 <= j < |users| && out.users[j] != users[j] ==> users[j].polarCustomerId == Some(customerId))
  {
  }

  /** A reported tier is the tier of the chosen subscription's product. */
  lemma ReportedTierIsProducts(users: seq<User>, customerId: string, products: Products, reply: Reply<ProviderSub>)
    requires SyncFromProvider(users, customerId, products, reply).tier.Some?
    ensures reply.Ok? && |reply.items| > 0
    ensures var t := SyncFromProvider(users, customerId, products, reply).tier.value;
      ProductOf(products, reply.items[ChooseSubscription(reply.items)].productId, t) && t != Free
  {
  }

  /** A paying or unlinked caller is served its stored record unchanged, and nothing is written. */
  lemma NoSyncNoWrite(users: seq<User>, session: Option<string>, products: Products, subscriptionsOf: string -> Reply<ProviderSub>)
    requires Authenticate(users, session).Success?
    requires !WantsSync(users[Authenticate(users, session).value])
    ensures GetProfile(users, session, products, subscriptionsOf)
         == ProfileStep(Served(users[Authenticate(users, session).value]), users)
  {
  }

  /**
   * When the caller is the first record linked to its customer, a sync
   * that reports a tier shows that tier; the subscription id shown is still
   * the one read before the sync.
   */
  lemma CallerSeesOwnSync(users: seq<User>, session: Option<string>, products: Products, subscriptionsOf: string -> Reply<ProviderSub>)
    requires UniqueClerkIds(users)
    requires Authenticate(users, session).Success?
    requires var i := Authenticate(users, session).value;
      && WantsSync(users[i])
      && FindFirst(users, CustomerIdIs(users[i].polarCustomerId.value)) == Some(i)
      && SyncFromProvider(users, users[i].polarCustomerId.value, products, subscriptionsOf(users[i].polarCustomerId.value)).tier.Some?
    ensures var i := Authenticate(users, session).value;
      var c := users[i].polarCustomerId.value;
      var out := SyncFromProvider(users, c, products, subscriptionsOf(c));
      var data := GetProfile(users, session, products, subscriptionsOf).response.body.fields["data"];
      && data.JObj?
      && data.fields["subscriptionTier"] == JStr(TierName(out.tier.value))
      && data.fields["polarSubscriptionId"] == OptStr(users[i].polarSubscriptionId)
  {
    var i := Authenticate(users, session).value;
    var c := users[i].polarCustomerId.value;
    var out := SyncFromProvider(users, c, products, subscriptionsOf(c));
    assert out.users[i].subscriptionTier == out.tier.value;
    assert out.users[i].clerkId == users[i].clerkId;
    var again := UserByClerkId(out.users, session.value);
    assert again == Some(i) by {
      forall j | 0 <= j < |out.users| && j != i ensures out.users[j].clerkId != session.value {
        assert out.users[j] == users[j];
      }
    }
  }
}
