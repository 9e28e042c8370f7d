/**
 * The persisted records (the database schema) and their enumerations, as the
 * route handlers read and write them.  Dates are milliseconds since the epoch;
 * a nullable column is an Option.
 */
module Schema {
  import opened Wrappers
  import opened Http

  datatype ApiKeyTier = Starter | Growth | Enterprise
  datatype Environment = Production | Testing

  datatype SubscriptionTier = Free | Pro | Business | ApiStarter | ApiGrowth | ApiEnterprise
  datatype SubscriptionStatus = Active | Inactive | Cancelled | PastDue | Trialing

  function TierName(t: SubscriptionTier): string
  {
    match t
    case Free => "FREE"
    case Pro => "PRO"
    case Business => "BUSINESS"
    case ApiStarter => "API_STARTER"
    case ApiGrowth => "API_GROWTH"
    case ApiEnterprise => "API_ENTERPRISE"
  }

  /** The database enum: a tier column accepts exactly the six tier names. */
  function TierFromName(s: string): (t: Option<SubscriptionTier>)
    ensures t.Some? ==> TierName(t.value) == s
    ensures forall u :: TierName(u) == s ==> t == Some(u)
  {
    if s == "FREE" then Some(Free)
    else if s == "PRO" then Some(Pro)
    else if s == "BUSINESS" then Some(Business)
    else if s == "API_STARTER" then Some(ApiStarter)
    else if s == "API_GROWTH" then Some(ApiGrowth)
    else if s == "API_ENTERPRISE" then Some(ApiEnterprise)
    else None
  }

  function ApiKeyTierName(t: ApiKeyTier): string
  {
    match t
    case Starter => "STARTER"
    case Growth => "GROWTH"
    case Enterprise => "ENTERPRISE"
  }

  function StatusName(s: SubscriptionStatus): string
  {
    match s
    case Active => "ACTIVE"
    case Inactive => "INACTIVE"
    case Cancelled => "CANCELLED"
    case PastDue => "PAST_DUE"
    case Trialing => "TRIALING"
  }

  datatype ApiKey = ApiKey(
    id: string,
    userId: string,
    name: string,
    keyPrefix: string,
    hashedKey: string,
    lastFourChars: string,
    environment: Environment,
    tier: ApiKeyTier,
    rateLimit: int,
    dailyLimit: int,
    monthlyLimit: int,
    isActive: bool,
    revokedAt: Option<int>,
    revokedReason: Option<string>,
    expiresAt: Option<int>,
    ipWhitelist: seq<string>,
    totalRequests: int,
    successfulRequests: int,
    failedRequests: int,
    dailyUsage: int,
    monthlyUsage: int,
    lastUsedAt: Option<int>,
    createdAt: int)

  datatype UsageLog = UsageLog(
    id: string,
    apiKeyId: string,
    userId: string,
    endpoint: string,
    httpMethod: string,
    statusCode: int,
    processingTimeMs: int,
    requestId: string,
    ipAddress: string,
    tokensUsed: Option<int>,
    wordCount: Option<int>,
    errorMessage: Option<string>,
    timestamp: int)

  datatype User = User(
    id: string,
    clerkId: string,
    email: string,
    subscriptionTier: SubscriptionTier,
    subscriptionStatus: SubscriptionStatus,
    trialStartDate: Option<int>,
    trialEndDate: Option<int>,
    monthlyAnalysesUsed: int,
    analysesCount: int,
    lastResetDate: Option<int>,
    polarCustomerId: Option<string>,
    polarSubscriptionId: Option<string>)

  /** A saved analysis (the columns the routes fill from the request). */
  datatype AnalysisRow = AnalysisRow(userId: string, title: string, content: string, tokensUsed: Option<int>)

  datatype WebhookEndpoint = WebhookEndpoint(
    id: string,
    userId: string,
    url: string,
    secret: string,
    events: seq<string>,
    isActive: bool,
    failureCount: int,
    lastSuccessAt: Option<int>,
    lastFailureAt: Option<int>)

  datatype WebhookDelivery = WebhookDelivery(
    webhookEndpointId: string,
    eventType: string,
    payload: Json,
    statusCode: Option<int>,
    responseBody: Option<string>,
    responseTimeMs: Option<int>,
    attemptNumber: int,
    success: bool,
    errorMessage: Option<string>)

  /** What the external analyzer returns: a JSON object (word_count, tokens_used, readability, …). */
  datatype AnalysisResult = AnalysisResult(fields: map<string, Json>)

  function IntField(fields: map<string, Json>, key: string): Option<int>
  {
    if key in fields && fields[key].JInt? then Some(fields[key].i) else None
  }

  /** `where: { id }` on the users table. */
  function UserIdIs(id: string): User -> bool
  {
    (u: User) => u.id == id
  }

  /** User ids are the table's primary key. */
  predicate UniqueUserIds(users: seq<User>)
  {
    forall i, j :: 0 <= i < j < |users| ==> users[i].id != users[j].id
  }

  /** Clerk ids are declared unique on the users table. */
  predicate UniqueClerkIds(users: seq<User>)
  {
    forall i, j :: 0 <= i < j < |users| ==> users[i].clerkId != users[j].clerkId
  }
}
