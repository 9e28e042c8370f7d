/**
 * The shapes that cross the HTTP boundary: JSON values, responses
 * (`NextResponse.json(body, { status, headers })`) and request headers.
 */
module Http {
  import opened Wrappers

  datatype Json =
    | JNull
    | JBool(b: bool)
    | JInt(i: int)
    | JReal(r: real)
    | JStr(s: string)
    | JArr(items: seq<Json>)
    | JObj(fields: map<string, Json>)

  /** `obj[key]`, None when `obj` is not an object or has no such key. */
  function Field(j: Json, key: string): Option<Json>
  {
    if j.JObj? && key in j.fields then Some(j.fields[key]) else None
  }

  /**
   * A payload field used as an ORM write `data: { column: value }` on a
   * nullable text column: absent leaves the column out of the update, null
   * clears it, a string is written, and any other value is refused.
   */
  datatype Assign = Keep | SetTo(value: Option<string>) | BadAssign

  function AssignOf(v: Option<Json>): Assign
  {
    if v.None? then Keep
    else match v.value
      case JNull => SetTo(None)
      case JStr(s) => SetTo(Some(s))
      case _ => BadAssign
  }

  function Assigned(a: Assign, column: Option<string>): Option<string>
  {
    if a.SetTo? then a.value else column
  }

  function OptStr(s: Option<string>): Json
  {
    if s.Some? then JStr(s.value) else JNull
  }

  function OptInt(i: Option<int>): Json
  {
    if i.Some? then JInt(i.value) else JNull
  }

  datatype Response = Response(status: int, body: Json, headers: map<string, string>)

  /** `NextResponse.json(body, { status })`; the default status is 200. */
  function JsonResponse(body: Json, status: int): Response
  {
    Response(status, body, map[])
  }

  /** `{ success: false, error: { message } }`, the error shape of the internal routes. */
  function InternalRouteError(message: string, status: int): Response
  {
    JsonResponse(JObj(map["success" := JBool(false), "error" := JObj(map["message" := JStr(message)])]), status)
  }

  /** `{ error }`, the error shape of the billing routes. */
  function PlainError(message: string, status: int): Response
  {
    JsonResponse(JObj(map["error" := JStr(message)]), status)
  }

  /**
   * Request headers keyed by lower-case name; `headers.get(name)` is
   * case-insensitive, so every lookup below uses the lower-case name.
   */
  datatype Request = Request(headers: map<string, string>)

  function Header(r: Request, name: string): Option<string>
  {
    if name in r.headers then Some(r.headers[name]) else None
  }
}
