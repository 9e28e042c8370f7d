/** The success and error envelopes of the public API (`successResponse`, `errorResponse`). */
module Envelope {
  import opened Wrappers
  import opened Http
  import ApiErrors

  datatype Usage = Usage(dailyRemaining: int, monthlyRemaining: int)

  function UsageJson(u: Usage): Json
  {
    JObj(map["daily_remaining" := JInt(u.dailyRemaining), "monthly_remaining" := JInt(u.monthlyRemaining)])
  }

  /**
   * `{ success: true, data }`, with `usage` added only when one is given; the
   * headers are passed through and the status is the default 200.
   */
  function SuccessResponse(data: Json, usage: Option<Usage>, headers: Option<map<string, string>>): (r: Response)
    ensures r.status == 200
    ensures r.headers == headers.GetOr(map[])
    ensures r.body.JObj?
    ensures r.body.fields.Keys == {"success", "data"} + (if usage.Some? then {"usage"} else {})
    ensures r.body.fields["success"] == JBool(true) && r.body.fields["data"] == data
    ensures usage.Some? ==> r.body.fields["usage"] == UsageJson(usage.value)
  {
    var body := map["success" := JBool(true), "data" := data];
    var body := if usage.Some? then body["usage" := UsageJson(usage.value)] else body;
    Response(200, JObj(body), headers.GetOr(map[]))
  }

  /** The `error` object: code and message, then every field of `extra` spread over them. */
  function ErrorObject(code: ApiErrors.ErrorCode, message: string, extra: map<string, Json>): (e: map<string, Json>)
    ensures e.Keys == {"code", "message"} + extra.Keys
    ensures forall k :: k in extra ==> e[k] == extra[k]
    ensures "code" !in extra ==> e["code"] == JStr(ApiErrors.Name(code))
    ensures "message" !in extra ==> e["message"] == JStr(message)
  {
    map["code" := JStr(ApiErrors.Name(code)), "message" := JStr(message)] + extra
  }

  /** `{ success: false, error: { code, message, ...extra } }` sent with the given status. */
  function ErrorResponse(code: ApiErrors.ErrorCode, message: string, statusCode: int, extra: map<string, Json>): (r: Response)
    ensures r.status == statusCode && r.headers == map[]
    ensures r.body.JObj? && r.body.fields.Keys == {"success", "error"}
    ensures r.body.fields["success"] == JBool(false)
    ensures r.body.fields["error"] == JObj(ErrorObject(code, message, extra))
  {
    JsonResponse(JObj(map["success" := JBool(false), "error" := JObj(ErrorObject(code, message, extra))]), statusCode)
  }

  /** The code of an error envelope, as the client reads it. */
  function ErrorCodeOf(r: Response): Option<Json>
  {
    match Field(r.body, "error")
    case Some(e) => Field(e, "code")
    case None => None
  }

  /** An error envelope without overriding extras reports its own code and message. */
  lemma ErrorResponseReadsBack(code: ApiErrors.ErrorCode, message: string, statusCode: int, extra: map<string, Json>)
    requires "code" !in extra && "message" !in extra
    ensures var r := ErrorResponse(code, message, statusCode, extra);
      ErrorCodeOf(r) == Some(JStr(ApiErrors.Name(code)))
      && Field(r.body.fields["error"], "message") == Some(JStr(message))
      && Field(r.body, "success") == Some(JBool(false))
  {
  }

  /** A `code` in `extra` wins over the code argument (spread order). */
  lemma ExtraOverridesCode(code: ApiErrors.ErrorCode, message: string, statusCode: int, extra: map<string, Json>)
    requires "code" in extra
    ensures ErrorCodeOf(ErrorResponse(code, message, statusCode, extra)) == Some(extra["code"])
  {
  }
}
