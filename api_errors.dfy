/** The error-code table and the data-carrying error class of the public API. */
module ApiErrors {
  import opened Wrappers

  datatype ErrorCode =
    | InvalidApiKey
    | ExpiredApiKey
    | RevokedApiKey
    | RateLimitExceeded
    | QuotaExceeded
    | InvalidRequest
    | InternalError
    | IpNotWhitelisted

  /** The code as it appears on the wire. */
  function Name(c: ErrorCode): string
  {
    match c
    case InvalidApiKey => "INVALID_API_KEY"
    case ExpiredApiKey => "EXPIRED_API_KEY"
    case RevokedApiKey => "REVOKED_API_KEY"
    case RateLimitExceeded => "RATE_LIMIT_EXCEEDED"
    case QuotaExceeded => "QUOTA_EXCEEDED"
    case InvalidRequest => "INVALID_REQUEST"
    case InternalError => "INTERNAL_ERROR"
    case IpNotWhitelisted => "IP_NOT_WHITELISTED"
  }

  /** `ErrorCodes[c].status`: every authentication failure is 401, the rest are distinct. */
  function Status(c: ErrorCode): (s: int)
    ensures s == 401 <==> c in {InvalidApiKey, ExpiredApiKey, RevokedApiKey}
    ensures s == 429 <==> c == RateLimitExceeded
    ensures s == 402 <==> c == QuotaExceeded
    ensures s == 400 <==> c == InvalidRequest
    ensures s == 500 <==> c == InternalError
    ensures s == 403 <==> c == IpNotWhitelisted
  {
    match c
    case InvalidApiKey => 401
    case ExpiredApiKey => 401
    case RevokedApiKey => 401
    case RateLimitExceeded => 429
    case QuotaExceeded => 402
    case InvalidRequest => 400
    case InternalError => 500
    case IpNotWhitelisted => 403
  }

  /** `ErrorCodes[c].message` */
  function DefaultMessage(c: ErrorCode): string
  {
    match c
    case InvalidApiKey => "Invalid API key provided"
    case ExpiredApiKey => "API key has expired"
    case RevokedApiKey => "API key has been revoked"
    case RateLimitExceeded => "Rate limit exceeded"
    case QuotaExceeded => "Monthly quota exceeded"
    case InvalidRequest => "Invalid request"
    case InternalError => "Internal server error"
    case IpNotWhitelisted => "IP address not whitelisted"
  }

  /** `new ApiError(statusCode, code, message, field?)`; its `name` is "ApiError". */
  datatype ApiError = ApiError(statusCode: int, code: string, message: string, field: Option<string>)
  {
    const name: string := "ApiError"
  }
}
