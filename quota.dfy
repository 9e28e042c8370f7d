/**
 * The monthly allowance of the dashboard's analyze and enhance routes:
 * the per-tier limit, the calendar-month reset, the 402 check, and the
 * charge made when a request succeeds.
 */
module Quota {
  import opened Wrappers
  import opened Strings
  import opened Http
  import opened Schema
  import opened Rows
  import opened Stores
  import opened InternalAuth

  /** The routes' own table, not the subscription limits. */
  function MonthlyLimit(t: SubscriptionTier): (n: int)
    ensures n > 0
  {
    match t
    case Free => 5
    case Pro => 50
    case Business => 200
    case ApiStarter => 100
    case ApiGrowth => 500
    case ApiEnterprise => 1000
  }

  /**
   * A new calendar month since the last reset.  `monthOf` gives the local
   * (year, month) of an instant as one number; a user never reset is
   * compared with now, so never needs a reset.
   */
  predicate NeedsReset(u: User, now: int, monthOf: int -> int)
  {
    u.lastResetDate.Some? && monthOf(now) != monthOf(u.lastResetDate.value)
  }

  function ResetAt(now: int): User -> User
  {
    (u: User) => u.(monthlyAnalysesUsed := 0, lastResetDate := Some(now))
  }

  /** `analysesCount: { increment: 1 }, monthlyAnalysesUsed: { increment: 1 }`. */
  function Charge(u: User): User
  {
    u.(analysesCount := u.analysesCount + 1, monthlyAnalysesUsed := u.monthlyAnalysesUsed + 1)
  }

  function QuotaExceeded(limit: int, noun: string): Response
  {
    JsonResponse(JObj(map["success" := JBool(false), "error" := JObj(map[
      "code" := JStr("QUOTA_EXCEEDED"),
      "message" := JStr("Monthly limit of " + IntToString(limit) + " " + noun + " reached. Please upgrade your plan.")])]), 402)
  }

  /** The catch-all: `error.message || fallback`. */
  function InternalFailure(message: string, fallback: string): Response
  {
    JsonResponse(JObj(map["success" := JBool(false), "error" := JObj(map[
      "code" := JStr("INTERNAL_ERROR"), "message" := JStr(if message == "" then fallback else message)])]), 500)
  }

  /** The usage block of a success: `used` and `remaining` count the request just served. */
  function UsageJson(used: int, limit: int): Json
  {
    JObj(map["used" := JInt(used + 1), "limit" := JInt(limit), "remaining" := JInt(limit - used - 1)])
  }

  datatype Gate =
    | Proceed(userId: string, used: int, limit: int)
    | Stop(response: Response)

  datatype GateStep = GateStep(gate: Gate, users: seq<User>)

  /** Sign-in, then the month reset (persisted at once), then the allowance check. */
  function QuotaGate(users: seq<User>, session: Option<string>, now: int, monthOf: int -> int, noun: string): GateStep
  {
    match Authenticate(users, session)
    case Failure(resp) => GateStep(Stop(resp), users)
    case Success(i) =>
      var u := users[i];
      var limit := MonthlyLimit(u.subscriptionTier);
      var reset := NeedsReset(u, now, monthOf);
      var users' := if reset then UpdateWhere(users, UserIdIs(u.id), ResetAt(now)) else users;
      var used := if reset then 0 else u.monthlyAnalysesUsed;
      if used >= limit then GateStep(Stop(QuotaExceeded(limit, noun)), users')
      else GateStep(Proceed(u.id, used, limit), users')
  }

  method CheckQuota(db: Db, session: Option<string>, now: int, monthOf: int -> int, noun: string) returns (g: Gate)
    modifies db`users
    ensures GateStep(g, db.users) == QuotaGate(old(db.users), session, now, monthOf, noun)
  {
    var caller := Authenticate(db.users, session);
    if caller.Failure? {
      return Stop(caller.error);
    }
    var u := db.users[caller.value];
    var limit := MonthlyLimit(u.subscriptionTier);
    var used := u.monthlyAnalysesUsed;
    if NeedsReset(u, now, monthOf) {
      db.users := UpdateWhere(db.users, UserIdIs(u.id), ResetAt(now));
      used := 0;
    }
    if used >= limit {
      return Stop(QuotaExceeded(limit, noun));
    }
    g := Proceed(u.id, used, limit);
  }

  /**
   * A caller admitted by the gate is under the limit, and its count is
   * zero exactly when the month rolled over (or it was zero already).
   */
  lemma GateAdmitsUnderLimit(users: seq<User>, session: Option<string>, now: int, monthOf: int -> int, noun: string)
    requires QuotaGate(users, session, now, monthOf, noun).gate.Proceed?
    ensures var g := QuotaGate(users, session, now, monthOf, noun).gate;
      var i := Authenticate(users, session).value;
      && g.used < g.limit && g.limit == MonthlyLimit(users[i].subscriptionTier) && g.userId == users[i].id
      && g.used == (if NeedsReset(users[i], now, monthOf) then 0 else users[i].monthlyAnalysesUsed)
  {
  }

  /** In a new month every signed-in user is admitted, whatever was used last month. */
  lemma NewMonthAdmits(users: seq<User>, session: Option<string>, now: int, monthOf: int -> int, noun: string)
    requires Authenticate(users, session).Success?
    requires NeedsReset(users[Authenticate(users, session).value], now, monthOf)
    ensures QuotaGate(users, session, now, monthOf, noun).gate.Proceed?
    ensures QuotaGate(users, session, now, monthOf, noun).gate.used == 0
  {
  }

  /** A user whose last reset is unknown is never reset: the 402 sees the stored count. */
  lemma NoResetWithoutDate(users: seq<User>, session: Option<string>, now: int, monthOf: int -> int, noun: string)
    requires Authenticate(users, session).Success?
    requires users[Authenticate(users, session).value].lastResetDate.None?
    ensures QuotaGate(users, session, now, monthOf, noun).users == users
    ensures var u := users[Authenticate(users, session).value];
      QuotaGate(users, session, now, monthOf, noun).gate.Stop? <==> u.monthlyAnalysesUsed >= MonthlyLimit(u.subscriptionTier)
  {
  }

  /** An over-quota caller is refused before anything else is read, and only the reset can have been written. */
  lemma RefusalWritesOnlyReset(users: seq<User>, session: Option<string>, now: int, monthOf: int -> int, noun: string)
    requires Authenticate(users, session).Success?
    requires QuotaGate(users, session, now, monthOf, noun).gate.Stop?
    ensures var u := users[Authenticate(users, session).value];
      && QuotaGate(users, session, now, monthOf, noun).gate.response.status == 402
      && !NeedsReset(u, now, monthOf)
      && QuotaGate(users, session, now, monthOf, noun).users == users
  {
  }

  /** The charge after an admission touches the caller's row only, adding one to each counter. */
  lemma ChargeAfterGate(users: seq<User>, session: Option<string>, now: int, monthOf: int -> int, noun: string)
    requires UniqueUserIds(users)
    requires QuotaGate(users, session, now, monthOf, noun).gate.Proceed?
    ensures var g := QuotaGate(users, session, now, monthOf, noun);
      var i := Authenticate(users, session).value;
      var after := UpdateWhere(g.users, UserIdIs(g.gate.userId), Charge);
      && |after| == |users|
      && after[i].monthlyAnalysesUsed == g.gate.used + 1
      && after[i].analysesCount == users[i].analysesCount + 1
      && (forall j :: 0 <= j < |users| && j != i ==> after[j] == users[j])
      && g.gate.used + 1 <= g.gate.limit
  {
    var g := QuotaGate(users, session, now, monthOf, noun);
    var i := Authenticate(users, session).value;
    GateAdmitsUnderLimit(users, session, now, monthOf, noun);
    assert |g.users| == |users|;
    forall j | 0 <= j < |users| && j != i ensures g.users[j] == users[j] && g.users[j].id != users[i].id {
    }
    assert g.users[i].id == users[i].id;
  }
}
