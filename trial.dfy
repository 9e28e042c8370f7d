/** POST and GET /api/polar/trial: start the free PRO trial, and report on it. */
module Trial {
  import opened Wrappers
  import opened Http
  import opened Schema
  import opened Rows
  import opened Stores
  import opened InternalAuth
  import opened Subscription

  /** Only a FREE user who is not already trialing may start a trial. */
  predicate EligibleForTrial(u: User)
  {
    u.subscriptionTier == Free && u.subscriptionStatus != Trialing
  }

  const NotAvailable := JsonResponse(JObj(map["error" := JStr("Trial not available"),
                                              "message" := JStr("You already have an active subscription or trial.")]), 400)
  const StartedMessage := "Trial started! You have 14 days of Pro access."

  function OptDate(d: Option<int>, isoOf: int -> string): Json
  {
    if d.Some? then JStr(isoOf(d.value)) else JNull
  }

  /** The refetched record's subscription fields; a record that vanished leaves them out. */
  function TrialData(u: Option<User>, isoOf: int -> string): Json
  {
    if u.None? then JObj(map[])
    else JObj(map["subscriptionTier" := JStr(TierName(u.value.subscriptionTier)),
                  "subscriptionStatus" := JStr(StatusName(u.value.subscriptionStatus)),
                  "trialEndDate" := OptDate(u.value.trialEndDate, isoOf)])
  }

  function Refetch(users: seq<User>, clerkId: string): Option<User>
  {
    match UserByClerkId(users, clerkId)
    case Some(i) => Some(users[i])
    case None => None
  }

  method StartTrialRoute(db: Db, session: Option<string>, now: int, isoOf: int -> string) returns (resp: Response)
    modifies db`users
    ensures AuthenticatePlain(old(db.users), session).Failure? ==>
            resp == AuthenticatePlain(old(db.users), session).error && db.users == old(db.users)
    ensures AuthenticatePlain(old(db.users), session).Success? ==>
            var u := old(db.users)[AuthenticatePlain(old(db.users), session).value];
            if !EligibleForTrial(u) then resp == NotAvailable && db.users == old(db.users)
            else
              && db.users == UpdateWhere(old(db.users), UserIdIs(u.id), StartedTrial(now, TrialDays))
              && resp == JsonResponse(JObj(map["success" := JBool(true), "message" := JStr(StartedMessage),
                                               "data" := TrialData(Refetch(db.users, session.value), isoOf)]), 200)
  {
    var caller := AuthenticatePlain(db.users, session);
    if caller.Failure? {
      return caller.error;
    }
    var u := db.users[caller.value];
    if !EligibleForTrial(u) {
      return NotAvailable;
    }
    var found := StartTrial(db, u.id, TrialDays, now);
    var updated := Refetch(db.users, session.value);
    resp := JsonResponse(JObj(map["success" := JBool(true), "message" := JStr(StartedMessage),
                                  "data" := TrialData(updated, isoOf)]), 200);
  }

  /** The route's own trial test, `trialEndDate > now`. */
  predicate RouteInTrial(u: User, now: int)
  {
    u.subscriptionStatus == Trialing && u.trialEndDate.Some? && u.trialEndDate.value > now
  }

  /** Whole days left, rounded up; zero outside a trial. */
  function TrialDaysRemaining(u: User, now: int): (d: int)
    ensures d >= 0
    ensures RouteInTrial(u, now) ==> d >= 1 && (d - 1) * DayMs < u.trialEndDate.value - now <= d * DayMs
    ensures !RouteInTrial(u, now) ==> d == 0
  {
    if RouteInTrial(u, now) then (u.trialEndDate.value - now + DayMs - 1) / DayMs else 0
  }

  /**
   * `status === 'TRIALING' && trialEndDate && trialEndDate > now` as it is
   * serialised: the `&&` chain yields its first falsy operand, so a trialing
   * user with no end date gets `null` rather than `false`.
   */
  function InTrialFlag(u: User, now: int): (j: Json)
    ensures j == JBool(true) <==> RouteInTrial(u, now)
    ensures j == JNull <==> u.subscriptionStatus == Trialing && u.trialEndDate.None?
    ensures j == JBool(true) || j == JBool(false) || j == JNull
  {
    if u.subscriptionStatus != Trialing then JBool(false)
    else if u.trialEndDate.None? then JNull
    else JBool(u.trialEndDate.value > now)
  }

  function StatusView(u: User, now: int, isoOf: int -> string): Json
  {
    JObj(map["isEligibleForTrial" := JBool(EligibleForTrial(u)), "isInTrial" := InTrialFlag(u, now),
             "trialDaysRemaining" := JInt(TrialDaysRemaining(u, now)), "trialEndDate" := OptDate(u.trialEndDate, isoOf)])
  }

  function TrialStatus(users: seq<User>, session: Option<string>, now: int, isoOf: int -> string): (r: Response)
    ensures AuthenticatePlain(users, session).Failure? ==> r == AuthenticatePlain(users, session).error
    ensures AuthenticatePlain(users, session).Success? ==>
            r.status == 200 && r.body.JObj? && "data" in r.body.fields && r.body.fields["data"] == StatusView(users[AuthenticatePlain(users, session).value], now, isoOf)
  {
    match AuthenticatePlain(users, session)
    case Failure(resp) => resp
    case Success(i) => JsonResponse(JObj(map["success" := JBool(true), "data" := StatusView(users[i], now, isoOf)]), 200)
  }

  /** The route's trial test is the entitlement module's. */
  lemma SameTrialTest(u: User, now: int)
    ensures RouteInTrial(u, now) <==> IsInTrial(u, now)
  {
  }

  /** A trial just started reports all fourteen days, and is no longer eligible. */
  lemma FreshTrialReport(u: User, now: int)
    ensures TrialDaysRemaining(StartedTrial(now, TrialDays)(u), now) == TrialDays
    ensures !EligibleForTrial(StartedTrial(now, TrialDays)(u))
  {
    var v := StartedTrial(now, TrialDays)(u);
    assert v.trialEndDate.value - now == 14 * DayMs;
    assert (14 * DayMs + DayMs - 1) / DayMs == 14;
  }

  /** The GET's eligibility flag is exactly the POST's condition for going ahead. */
  lemma EligibilityMatchesPost(users: seq<User>, session: Option<string>, now: int, isoOf: int -> string)
    requires AuthenticatePlain(users, session).Success?
    ensures var u := users[AuthenticatePlain(users, session).value];
      TrialStatus(users, session, now, isoOf).body.fields["data"].fields["isEligibleForTrial"] == JBool(EligibleForTrial(u))
  {
  }
}
