/**
 * The request-body schemas of the routes, as their validation library
 * checks them: fields in declaration order, the first issue found decides
 * the reported message and its dotted path.  Messages are the schema's own
 * where it gives one, otherwise the library's default wording.
 */
module RequestSchemas {
  import opened Wrappers
  import opened Strings
  import opened Http

  datatype Issue = Issue(message: string, path: string)

  /** The type name used in "Expected …, received …" messages. */
  function TypeName(j: Json): string
  {
    match j
    case JNull => "null"
    case JBool(_) => "boolean"
    case JInt(_) => "number"
    case JReal(_) => "number"
    case JStr(_) => "string"
    case JArr(_) => "array"
    case JObj(_) => "object"
  }

  function Expected(kind: string, v: Option<Json>, path: string): Issue
  {
    if v.None? then Issue("Required", path) else Issue("Expected " + kind + ", received " + TypeName(v.value), path)
  }

  function Join(path: string, key: string): string
  {
    if path == "" then key else path + "." + key
  }

  /** The first issue of a list of checks run in order. */
  function FirstIssue(checks: seq<Option<Issue>>): (r: Option<Issue>)
    ensures r.None? <==> forall i :: 0 <= i < |checks| ==> checks[i].None?
    ensures r.Some? ==> exists i :: 0 <= i < |checks| && checks[i] == r && forall j :: 0 <= j < i ==> checks[j].None?
  {
    if checks == [] then None
    else if checks[0].Some? then checks[0]
    else
      var r := FirstIssue(checks[1..]);
      assert r.Some? ==> exists i :: 0 <= i < |checks[1..]| && checks[1..][i] == r && forall j :: 0 <= j < i ==> checks[1..][j].None?;
      if r.Some? then
        var i :| 0 <= i < |checks[1..]| && checks[1..][i] == r && forall j :: 0 <= j < i ==> checks[1..][j].None?;
        assert checks[i + 1] == r;
        r
      else r
  }

  /** A required string of `min`..`max` characters. */
  function RequiredString(v: Option<Json>, path: string, min: nat, minMessage: string, max: nat, maxMessage: string): (r: Option<Issue>)
    ensures r.None? <==> v.Some? && v.value.JStr? && min <= |v.value.s| <= max
    ensures r.Some? ==> r.value.path == path
    ensures v.Some? && v.value.JStr? && |v.value.s| < min ==> r == Some(Issue(minMessage, path))
  {
    if v.Some? && v.value.JStr? then
      if |v.value.s| < min then Some(Issue(minMessage, path))
      else if |v.value.s| > max then Some(Issue(maxMessage, path))
      else None
    else Some(Expected("string", v, path))
  }

  /** A required string with no length rule. */
  function AnyString(v: Option<Json>, path: string): (r: Option<Issue>)
    ensures r.None? <==> v.Some? && v.value.JStr?
  {
    if v.Some? && v.value.JStr? then None else Some(Expected("string", v, path))
  }

  function AtLeast(n: nat): string { "String must contain at least " + NatToString(n) + " character(s)" }
  function AtMost(n: nat): string { "String must contain at most " + NatToString(n) + " character(s)" }

  function OptionalString(v: Option<Json>, path: string): (r: Option<Issue>)
    ensures r.None? <==> v.None? || v.value.JStr?
  {
    if v.None? || v.value.JStr? then None else Some(Expected("string", v, path))
  }

  function OptionalBool(v: Option<Json>, path: string): (r: Option<Issue>)
    ensures r.None? <==> v.None? || v.value.JBool?
  {
    if v.None? || v.value.JBool? then None else Some(Expected("boolean", v, path))
  }

  /** The value of an optional string field that passed its check. */
  function StrOf(v: Option<Json>): Option<string>
  {
    if v.Some? && v.value.JStr? then Some(v.value.s) else None
  }

  /** The value of a boolean field with a default, once it has passed its check. */
  function BoolOr(v: Option<Json>, default: bool): bool
  {
    if v.Some? && v.value.JBool? then v.value.b else default
  }

  /** A value from a fixed list of names. */
  function EnumIssue(v: Option<Json>, path: string, names: seq<string>, expectedList: string): (r: Option<Issue>)
    ensures r.None? <==> v.Some? && v.value.JStr? && v.value.s in names
  {
    if v.Some? && v.value.JStr? then
      if v.value.s in names then None
      else Some(Issue("Invalid enum value. Expected " + expectedList + ", received '" + v.value.s + "'", path))
    else Some(Expected(expectedList, v, path))
  }

  /** An object-typed schema rejects every non-object body at the root. */
  function ObjectIssue(v: Option<Json>, path: string): (r: Option<Issue>)
    ensures r.None? <==> v.Some? && v.value.JObj?
  {
    if v.Some? && v.value.JObj? then None else Some(Expected("object", v, path))
  }
}
