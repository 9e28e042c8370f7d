/**
 * The session check shared by the dashboard's internal routes: a signed-in
 * session id, then the user row whose `clerkId` matches it.
 */
module InternalAuth {
  import opened Wrappers
  import opened Http
  import opened Schema
  import opened Rows

  function ClerkIdIs(clerkId: string): User -> bool
  {
    (u: User) => u.clerkId == clerkId
  }

  /** `findUnique({ where: { clerkId } })`. */
  function UserByClerkId(users: seq<User>, clerkId: string): (r: Option<nat>)
    ensures r.Some? ==> r.value < |users| && users[r.value].clerkId == clerkId
    ensures r.None? ==> forall i :: 0 <= i < |users| ==> users[i].clerkId != clerkId
  {
    FindFirst(users, ClerkIdIs(clerkId))
  }

  const Unauthorized := InternalRouteError("Unauthorized", 401)
  const UserNotFound := InternalRouteError("User not found", 404)

  /** A missing or empty session id is 401, an unknown user 404; otherwise the caller's row and its position. */
  function Authenticate(users: seq<User>, session: Option<string>): (r: Result<nat, Response>)
    ensures r.Success? <==> session.Some? && session.value != "" && UserByClerkId(users, session.value).Some?
    ensures r.Success? ==> r.value < |users| && users[r.value].clerkId == session.value
    ensures (session.None? || session.value == "") ==> r == Failure(Unauthorized)
    ensures session.Some? && session.value != "" && UserByClerkId(users, session.value).None? ==> r == Failure(UserNotFound)
  {
    if session.None? || session.value == "" then Failure(Unauthorized)
    else match UserByClerkId(users, session.value)
      case None => Failure(UserNotFound)
      case Some(i) => Success(i)
  }

  /** The same check, answered in the billing routes' `{ error }` shape. */
  function AuthenticatePlain(users: seq<User>, session: Option<string>): (r: Result<nat, Response>)
    ensures r.Success? <==> Authenticate(users, session).Success?
    ensures r.Success? ==> r.value == Authenticate(users, session).value
    ensures r == Failure(PlainError("Unauthorized", 401)) <==> Authenticate(users, session) == Failure(Unauthorized)
    ensures r == Failure(PlainError("User not found", 404)) <==> Authenticate(users, session) == Failure(UserNotFound)
  {
    match Authenticate(users, session)
    case Success(i) => Success(i)
    case Failure(resp) =>
      if resp == Unauthorized then Failure(PlainError("Unauthorized", 401)) else Failure(PlainError("User not found", 404))
  }

  /** What the framework sends when a handler throws: a bare 500. */
  const Unhandled := Response(500, JNull, map[])
}
