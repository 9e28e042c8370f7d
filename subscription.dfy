/**
 * Entitlements of the web application: trials, the effective tier and
 * status, the per-tier limits, feature gating and the analysis allowance,
 * plus the user-record updates that start, end and expire trials.
 */
module Subscription {
  import opened Wrappers
  import opened Schema
  import opened Rows
  import opened Stores

  const TrialDays := 14
  const DayMs := 86400000

  datatype TierLimits = TierLimits(analysesPerMonth: int, apiCallsPerMonth: int, teamMembers: Option<int>)

  /** The per-tier table; an API_ENTERPRISE call allowance of -1 means unlimited. */
  function GetTierLimits(tier: SubscriptionTier): (l: TierLimits)
    ensures tier.ApiStarter? || tier.ApiGrowth? || tier.ApiEnterprise? ==> l.analysesPerMonth == 0
    ensures l.apiCallsPerMonth == -1 <==> tier == ApiEnterprise
    ensures l.teamMembers.Some? <==> tier == Pro || tier == Business
  {
    match tier
    case Free => TierLimits(5, 0, None)
    case Pro => TierLimits(500, 0, Some(1))
    case Business => TierLimits(2000, 1000, Some(5))
    case ApiStarter => TierLimits(0, 10000, None)
    case ApiGrowth => TierLimits(0, 50000, None)
    case ApiEnterprise => TierLimits(0, -1, None)
  }

  predicate IsInTrial(u: User, now: int)
  {
    u.subscriptionStatus == Trialing && u.trialEndDate.Some? && now < u.trialEndDate.value
  }

  /** A running trial grants PRO; otherwise the stored tier. */
  function EffectiveTier(u: User, now: int): (t: SubscriptionTier)
    ensures IsInTrial(u, now) ==> t == Pro
    ensures !IsInTrial(u, now) ==> t == u.subscriptionTier
  {
    if IsInTrial(u, now) then Pro else u.subscriptionTier
  }

  function EffectiveStatus(u: User, now: int): (s: SubscriptionStatus)
    ensures IsInTrial(u, now) ==> s == Trialing
    ensures !IsInTrial(u, now) ==> s == u.subscriptionStatus
  {
    if IsInTrial(u, now) then Trialing else u.subscriptionStatus
  }

  predicate InGoodStanding(u: User, now: int)
  {
    EffectiveStatus(u, now) == Active || EffectiveStatus(u, now) == Trialing
  }

  datatype Feature = SeoAnalysis | KeywordSuggestions | PdfExport | ApiAccess | Webhooks | Team | CustomBranding

  predicate IsApiTier(t: SubscriptionTier)
  {
    t == ApiStarter || t == ApiGrowth || t == ApiEnterprise
  }

  /** Which tiers open a feature, for a user in good standing. */
  predicate TierGrants(t: SubscriptionTier, f: Feature)
  {
    match f
    case SeoAnalysis => true
    case KeywordSuggestions => t != Free
    case PdfExport => t != Free
    case ApiAccess => IsApiTier(t) || t == Business
    case Webhooks => t == Business
    case Team => t == Business
    case CustomBranding => t == Business
  }

  function CanAccessFeature(u: User, f: Feature, now: int): (b: bool)
    ensures b ==> InGoodStanding(u, now)
    ensures InGoodStanding(u, now) ==> (b <==> TierGrants(EffectiveTier(u, now), f))
  {
    if !InGoodStanding(u, now) then false else TierGrants(EffectiveTier(u, now), f)
  }

  function RemainingAnalyses(u: User, now: int): (r: int)
    ensures r >= 0
    ensures r == 0 <==> u.monthlyAnalysesUsed >= GetTierLimits(EffectiveTier(u, now)).analysesPerMonth
    ensures r > 0 ==> r + u.monthlyAnalysesUsed == GetTierLimits(EffectiveTier(u, now)).analysesPerMonth
  {
    var left := GetTierLimits(EffectiveTier(u, now)).analysesPerMonth - u.monthlyAnalysesUsed;
    if left > 0 then left else 0
  }

  function CanPerformAnalysis(u: User, now: int): (b: bool)
    ensures b ==> InGoodStanding(u, now)
  {
    InGoodStanding(u, now) && u.monthlyAnalysesUsed < GetTierLimits(EffectiveTier(u, now)).analysesPerMonth
  }

  /** The two allowance views agree: an analysis is allowed exactly when the user is in good standing and has some left. */
  lemma CanPerformIffRemaining(u: User, now: int)
    ensures CanPerformAnalysis(u, now) <==> InGoodStanding(u, now) && RemainingAnalyses(u, now) > 0
  {
  }

  /** API plans carry no web analyses at all. */
  lemma ApiTiersCannotAnalyse(u: User, now: int)
    requires IsApiTier(EffectiveTier(u, now)) && u.monthlyAnalysesUsed >= 0
    ensures !CanPerformAnalysis(u, now) && RemainingAnalyses(u, now) == 0
  {
  }

  /** FREE, PRO and BUSINESS open successively more features. */
  lemma FeaturesGrowWithTier(f: Feature)
    ensures TierGrants(Free, f) ==> TierGrants(Pro, f)
    ensures TierGrants(Pro, f) ==> TierGrants(Business, f)
    ensures TierGrants(Business, f)
  {
  }

  // ---------------------------------------------------------------------
  // Trial records

  /** The trial end, `days` calendar days after the start. */
  function TrialEnd(now: int, days: int): int
  {
    now + days * DayMs
  }

  function StartedTrial(now: int, days: int): User -> User
  {
    (u: User) => u.(subscriptionTier := Pro, subscriptionStatus := Trialing,
                    trialStartDate := Some(now), trialEndDate := Some(TrialEnd(now, days)))
  }

  function EndedTrial(u: User): User
  {
    u.(subscriptionTier := Free, subscriptionStatus := Inactive, trialStartDate := None, trialEndDate := None)
  }

  function EndTrialOf(u: User): User { EndedTrial(u) }

  /** `prisma.user.update({ where: { id } })`: false when no row has that id (the update throws). */
  method StartTrial(db: Db, userId: string, days: int, now: int) returns (found: bool)
    modifies db`users
    ensures found <==> FindFirst(old(db.users), UserIdIs(userId)).Some?
    ensures db.users == UpdateWhere(old(db.users), UserIdIs(userId), StartedTrial(now, days))
  {
    found := FindFirst(db.users, UserIdIs(userId)).Some?;
    if found {
      db.users := UpdateWhere(db.users, UserIdIs(userId), StartedTrial(now, days));
    }
  }

  method EndTrial(db: Db, userId: string) returns (found: bool)
    modifies db`users
    ensures found <==> FindFirst(old(db.users), UserIdIs(userId)).Some?
    ensures db.users == UpdateWhere(old(db.users), UserIdIs(userId), EndTrialOf)
  {
    found := FindFirst(db.users, UserIdIs(userId)).Some?;
    if found {
      db.users := UpdateWhere(db.users, UserIdIs(userId), EndTrialOf);
    }
  }

  /** A started trial runs, with PRO benefits, from its start until just before its end. */
  lemma {:induction false} TrialWindow(u: User, now: int, days: int, t: int)
    ensures var v := StartedTrial(now, days)(u);
      && (now <= t < TrialEnd(now, days) ==> IsInTrial(v, t) && EffectiveTier(v, t) == Pro && CanAccessFeature(v, PdfExport, t))
      && (t >= TrialEnd(now, days) ==> !IsInTrial(v, t))
  {
  }

  /**
   * Until the sweep runs, a trial past its end still reads as PRO and
   * TRIALING from the stored columns, so it keeps PRO features.
   */
  lemma LapsedTrialKeepsAccess(u: User, now: int, days: int, t: int, f: Feature)
    requires t >= TrialEnd(now, days) && TierGrants(Pro, f)
    ensures CanAccessFeature(StartedTrial(now, days)(u), f, t)
  {
  }

  /** An ended trial opens nothing. */
  lemma EndedTrialOpensNothing(u: User, f: Feature, now: int)
    ensures !CanAccessFeature(EndedTrial(u), f, now)
    ensures !CanPerformAnalysis(EndedTrial(u), now)
  {
  }

  // ---------------------------------------------------------------------
  // The expiry sweep

  /** `subscriptionStatus: 'TRIALING', trialEndDate: { lt: now }`; a null end date never matches. */
  predicate TrialLapsed(u: User, now: int)
  {
    u.subscriptionStatus == Trialing && u.trialEndDate.Some? && u.trialEndDate.value < now
  }

  function LapsedAt(now: int): User -> bool
  {
    (u: User) => TrialLapsed(u, now)
  }

  /** Every lapsed trial ended, every other row as it was. */
  function ExpireTrials(users: seq<User>, now: int): (r: seq<User>)
    ensures |r| == |users|
  {
    seq(|users|, j requires 0 <= j < |users| => if TrialLapsed(users[j], now) then EndedTrial(users[j]) else users[j])
  }

  predicate IdAmong(id: string, rows: seq<User>)
  {
    exists k :: 0 <= k < |rows| && rows[k].id == id
  }

  lemma IdAmongStep(rows: seq<User>, i: nat, id: string)
    requires i < |rows|
    ensures IdAmong(id, rows[..i + 1]) <==> IdAmong(id, rows[..i]) || rows[i].id == id
  {
    if IdAmong(id, rows[..i + 1]) && !IdAmong(id, rows[..i]) {
      var k :| 0 <= k < i + 1 && rows[..i + 1][k].id == id;
      assert k == i;
    }
    if rows[i].id == id {
      assert rows[..i + 1][i].id == id;
    }
    if IdAmong(id, rows[..i]) {
      var k :| 0 <= k < i && rows[..i][k].id == id;
      assert rows[..i + 1][k].id == id;
    }
  }

  /** With unique ids, a row's id is among the query's rows exactly when that row matched. */
  lemma LapsedIds(start: seq<User>, now: int, j: nat)
    requires UniqueUserIds(start) && j < |start|
    ensures IdAmong(start[j].id, FindMany(start, LapsedAt(now))) <==> TrialLapsed(start[j], now)
  {
    var expired := FindMany(start, LapsedAt(now));
    if IdAmong(start[j].id, expired) {
      var k :| 0 <= k < |expired| && expired[k].id == start[j].id;
      assert expired[k] in expired;
      assert expired[k] in start && LapsedAt(now)(expired[k]);
      var m :| 0 <= m < |start| && start[m] == expired[k];
      assert m == j;
    }
    if TrialLapsed(start[j], now) {
      assert LapsedAt(now)(start[j]);
      assert start[j] in expired;
      var k :| 0 <= k < |expired| && expired[k] == start[j];
    }
  }

  /** Ends, one by one, the trial of every user the query returns. */
  method CheckAndExpireTrials(db: Db, now: int)
    requires UniqueUserIds(db.users)
    modifies db`users
    ensures db.users == ExpireTrials(old(db.users), now)
  {
    var start := db.users;
    var expired := FindMany(db.users, LapsedAt(now));
    var i := 0;
    while i < |expired|
      invariant 0 <= i <= |expired|
      invariant SweptUpTo(start, db.users, expired, i)
    {
      var before := db.users;
      var found := EndTrial(db, expired[i].id);
      SweepStep(start, before, db.users, expired, i);
      i := i + 1;
    }
    SweepDone(start, db.users, now, expired);
  }

  /** The rows after the first `i` ended trials: those whose id was among them are ended. */
  ghost predicate SweptUpTo(start: seq<User>, users: seq<User>, expired: seq<User>, i: nat)
    requires i <= |expired|
  {
    |users| == |start| &&
    forall j :: 0 <= j < |start| ==> users[j] == if IdAmong(start[j].id, expired[..i]) then EndedTrial(start[j]) else start[j]
  }

  lemma SweepStep(start: seq<User>, before: seq<User>, after: seq<User>, expired: seq<User>, i: nat)
    requires i < |expired| && SweptUpTo(start, before, expired, i)
    requires after == UpdateWhere(before, UserIdIs(expired[i].id), EndTrialOf)
    ensures SweptUpTo(start, after, expired, i + 1)
  {
    forall j | 0 <= j < |start|
      ensures after[j] == if IdAmong(start[j].id, expired[..i + 1]) then EndedTrial(start[j]) else start[j]
    {
      IdAmongStep(expired, i, start[j].id);
      assert before[j].id == start[j].id;
    }
  }

  lemma SweepDone(start: seq<User>, users: seq<User>, now: int, expired: seq<User>)
    requires UniqueUserIds(start) && expired == FindMany(start, LapsedAt(now))
    requires SweptUpTo(start, users, expired, |expired|)
    ensures users == ExpireTrials(start, now)
  {
    assert expired[..|expired|] == expired;
    forall j | 0 <= j < |start| ensures users[j] == ExpireTrials(start, now)[j] {
      LapsedIds(start, now, j);
    }
  }

  /** After the sweep no lapsed trial is left, and the sweep is idempotent. */
  lemma {:induction false} SweepLeavesNoLapsedTrial(users: seq<User>, now: int)
    ensures forall j :: 0 <= j < |users| ==> !TrialLapsed(ExpireTrials(users, now)[j], now)
    ensures ExpireTrials(ExpireTrials(users, now), now) == ExpireTrials(users, now)
  {
    var r := ExpireTrials(users, now);
    assert forall j :: 0 <= j < |users| ==> !TrialLapsed(r[j], now);
  }

  /** A row whose trial has not lapsed (a running trial, one ending exactly now, or no trial) is left alone by the sweep. */
  lemma RunningTrialSurvivesSweep(users: seq<User>, now: int, j: nat)
    requires j < |users| && !TrialLapsed(users[j], now)
    ensures ExpireTrials(users, now)[j] == users[j]
  {
  }

  /** A row whose trial has lapsed is ended by the sweep. */
  lemma LapsedTrialEnded(users: seq<User>, now: int, j: nat)
    requires j < |users| && TrialLapsed(users[j], now)
    ensures ExpireTrials(users, now)[j] == EndedTrial(users[j])
  {
  }

  // ---------------------------------------------------------------------
  // Display names

  function FormatTier(t: SubscriptionTier): (s: string)
    ensures s != ""
  {
    match t
    case Free => "Free"
    case Pro => "Pro"
    case Business => "Business"
    case ApiStarter => "API Starter"
    case ApiGrowth => "API Growth"
    case ApiEnterprise => "API Enterprise"
  }

  function FormatStatus(s: SubscriptionStatus): (r: string)
    ensures r != ""
  {
    match s
    case Active => "Active"
    case Inactive => "Inactive"
    case Cancelled => "Cancelled"
    case PastDue => "Past Due"
    case Trialing => "Trial"
  }

  /** Distinct tiers and distinct statuses display differently. */
  lemma DisplayNamesDistinct(a: SubscriptionTier, b: SubscriptionTier, c: SubscriptionStatus, d: SubscriptionStatus)
    ensures FormatTier(a) == FormatTier(b) ==> a == b
    ensures FormatStatus(c) == FormatStatus(d) ==> c == d
  {
  }
}
