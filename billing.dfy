/**
 * What the billing routes share: the provider's subscription and customer
 * records, the configured product ids, the product→tier and
 * status→status tables, subscription selection, and the way a payload
 * field becomes a database filter.
 */
module Billing {
  import opened Wrappers
  import opened Http
  import opened Schema
  import opened Rows

  // ---------------------------------------------------------------------
  // The provider's records

  datatype ProviderSub = ProviderSub(id: string, productId: string, status: string, currentPeriodEnd: Option<string>)
  datatype Customer = Customer(id: string)

  /** A provider call: a list (`data.items || []`), a non-OK HTTP status, or a thrown error. */
  datatype Reply<T> = Ok(items: seq<T>) | NotOk | Threw(message: string)

  predicate Live(s: ProviderSub)
  {
    s.status == "active" || s.status == "trialing"
  }

  /** `subs.find(active or trialing) || subs[0]`. */
  function ChooseSubscription(subs: seq<ProviderSub>): (i: nat)
    requires |subs| > 0
    ensures i < |subs|
    ensures (exists j :: 0 <= j < |subs| && Live(subs[j])) ==> Live(subs[i]) && forall j :: 0 <= j < i ==> !Live(subs[j])
    ensures (forall j :: 0 <= j < |subs| ==> !Live(subs[j])) ==> i == 0
  {
    if Live(subs[0]) || |subs| == 1 then 0
    else
      var k := ChooseSubscription(subs[1..]);
      if Live(subs[1..][k]) then k + 1 else 0
  }

  // ---------------------------------------------------------------------
  // Product ids and tiers

  /** The per-product environment variables read by the sync and profile routes; None when unset. */
  datatype Products = Products(
    proMonthly: Option<string>, proAnnual: Option<string>,
    businessMonthly: Option<string>, businessAnnual: Option<string>,
    apiStarter: Option<string>, apiGrowth: Option<string>, apiGrowthAnnual: Option<string>,
    apiEnterprise: Option<string>)

  predicate Is(productId: string, configured: Option<string>)
  {
    configured == Some(productId)
  }

  predicate ProductOf(p: Products, productId: string, t: SubscriptionTier)
  {
    match t
    case Pro => Is(productId, p.proMonthly) || Is(productId, p.proAnnual)
    case Business => Is(productId, p.businessMonthly) || Is(productId, p.businessAnnual)
    case ApiStarter => Is(productId, p.apiStarter)
    case ApiGrowth => Is(productId, p.apiGrowth) || Is(productId, p.apiGrowthAnnual)
    case ApiEnterprise => Is(productId, p.apiEnterprise)
    case Free => false
  }

  /** The sync route's order: monthly PRO, monthly BUSINESS, annual PRO, annual BUSINESS, then the API plans. */
  function SyncTier(p: Products, productId: string): (t: Option<SubscriptionTier>)
    ensures t.Some? ==> ProductOf(p, productId, t.value)
    ensures t.None? ==> forall u :: !ProductOf(p, productId, u)
  {
    if Is(productId, p.proMonthly) then Some(Pro)
    else if Is(productId, p.businessMonthly) then Some(Business)
    else if Is(productId, p.proAnnual) then Some(Pro)
    else if Is(productId, p.businessAnnual) then Some(Business)
    else if Is(productId, p.apiStarter) then Some(ApiStarter)
    else if Is(productId, p.apiGrowth) then Some(ApiGrowth)
    else if Is(productId, p.apiGrowthAnnual) then Some(ApiGrowth)
    else if Is(productId, p.apiEnterprise) then Some(ApiEnterprise)
    else None
  }

  /** The profile route's order: both PRO ids, both BUSINESS ids, then the API plans. */
  function ProfileTier(p: Products, productId: string): (t: Option<SubscriptionTier>)
    ensures t.Some? ==> ProductOf(p, productId, t.value)
    ensures t.None? ==> forall u :: !ProductOf(p, productId, u)
  {
    if Is(productId, p.proMonthly) || Is(productId, p.proAnnual) then Some(Pro)
    else if Is(productId, p.businessMonthly) || Is(productId, p.businessAnnual) then Some(Business)
    else if Is(productId, p.apiStarter) then Some(ApiStarter)
    else if Is(productId, p.apiGrowth) || Is(productId, p.apiGrowthAnnual) then Some(ApiGrowth)
    else if Is(productId, p.apiEnterprise) then Some(ApiEnterprise)
    else None
  }

  /**
   * `productId === env.X` for a payload field: an absent field equals an
   * unset variable, null equals nothing.
   */
  predicate SameProduct(v: Option<Json>, configured: Option<string>)
  {
    (v.None? && configured.None?) || (v.Some? && v.value.JStr? && configured == Some(v.value.s))
  }

  /** A product id configured for one tier only. */
  predicate Unambiguous(p: Products, productId: string)
  {
    forall t, u :: ProductOf(p, productId, t) && ProductOf(p, productId, u) ==> t == u
  }

  /** The two orders agree on every product id that belongs to one tier only. */
  lemma TierOrdersAgree(p: Products, productId: string)
    requires Unambiguous(p, productId)
    ensures SyncTier(p, productId) == ProfileTier(p, productId)
  {
  }

  /** When an annual PRO id is also configured as the monthly BUSINESS id, the two routes disagree. */
  lemma TierOrdersCanDiffer(p: Products, productId: string)
    requires p.proMonthly != Some(productId) && p.proAnnual == Some(productId) && p.businessMonthly == Some(productId)
    ensures SyncTier(p, productId) == Some(Business) && ProfileTier(p, productId) == Some(Pro)
  {
  }

  /** The provider's subscription statuses; anything else reads as inactive. */
  function StatusFromProvider(s: string): (r: SubscriptionStatus)
    ensures s == "trialing" <==> r == Trialing
    ensures s == "active" <==> r == Active
    ensures s != "active" && s != "trialing" && s != "past_due" && s != "canceled" ==> r == Inactive
  {
    if s == "active" then Active
    else if s == "trialing" then Trialing
    else if s == "past_due" then PastDue
    else if s == "canceled" then Cancelled
    else Inactive
  }

  function ProviderStatusName(s: SubscriptionStatus): string
  {
    match s
    case Active => "active"
    case Trialing => "trialing"
    case PastDue => "past_due"
    case Cancelled => "canceled"
    case Inactive => "inactive"
  }

  /** The table is onto: each internal status has exactly its provider name. */
  lemma StatusRoundTrip(s: SubscriptionStatus)
    ensures StatusFromProvider(ProviderStatusName(s)) == s
  {
  }

  // ---------------------------------------------------------------------
  // Payload fields as filters and assignments

  /**
   * A payload field used in `where: { column: value }`: an absent field
   * drops the condition (every row matches), null matches a null column,
   * a string matches that value, and any other JSON value makes the query
   * throw.
   */
  datatype Filter = AnyRow | IsNull | Equals(s: string) | BadFilter

  function FilterOf(v: Option<Json>): Filter
  {
    if v.None? then AnyRow
    else match v.value
      case JNull => IsNull
      case JStr(s) => Equals(s)
      case _ => BadFilter
  }

  predicate FilterMatches(f: Filter, column: Option<string>)
  {
    match f
    case AnyRow => true
    case IsNull => column.None?
    case Equals(s) => column == Some(s)
    case BadFilter => false
  }

  /** JavaScript truthiness of a payload field. */
  predicate Truthy(v: Option<Json>)
  {
    v.Some? && match v.value
      case JNull => false
      case JBool(b) => b
      case JInt(i) => i != 0
      case JReal(r) => r != 0.0
      case JStr(s) => s != ""
      case _ => true
  }

  function StrOrNone(v: Option<Json>): Option<string>
  {
    if v.Some? && v.value.JStr? then Some(v.value.s) else None
  }

  /** An absent field filters nothing, so it matches the first row of any non-empty table. */
  lemma AbsentFilterMatchesAll(column: Option<string>)
    ensures FilterMatches(FilterOf(None), column)
    ensures FilterMatches(FilterOf(Some(JStr("x"))), column) <==> column == Some("x")
  {
  }

  /** On a non-nullable column a null filter is a validation error, as any other ill-typed value. */
  function OnRequiredColumn(f: Filter): (r: Filter)
    ensures r.BadFilter? <==> f.BadFilter? || f.IsNull?
  {
    if f.IsNull? then BadFilter else f
  }

  /** `findFirst({ where: { column: f } })`: None when the query throws, else the first matching row if any. */
  function FirstWhere(users: seq<User>, f: Filter, column: User -> Option<string>): (r: Option<Option<nat>>)
    ensures r.None? <==> f.BadFilter?
    ensures r.Some? && r.value.Some? ==> r.value.value < |users| && FilterMatches(f, column(users[r.value.value]))
    ensures r.Some? && r.value.Some? ==> forall j :: 0 <= j < r.value.value ==> !FilterMatches(f, column(users[j]))
    ensures r.Some? && r.value.None? ==> forall j :: 0 <= j < |users| ==> !FilterMatches(f, column(users[j]))
  {
    if f.BadFilter? then None else Some(FindFirst(users, (u: User) => FilterMatches(f, column(u))))
  }

  function EmailColumn(u: User): Option<string> { Some(u.email) }
  function CustomerColumn(u: User): Option<string> { u.polarCustomerId }
  function SubscriptionColumn(u: User): Option<string> { u.polarSubscriptionId }

  /** What an event handler leaves: the query or update threw, or the rows after its writes. */
  datatype Outcome = Raised | Wrote(users: seq<User>)
}
