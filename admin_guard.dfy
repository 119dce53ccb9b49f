/** `AdminGuard`: only administrators pass; a request without a user is
    treated as an administrator. */
module AdminAccess {
  import opened Wrappers
  import opened JsonValues

  const FORBIDDEN: string := "You do not have permission to access this patient"
  const NOT_AUTHENTICATED: string := "User not authenticated"

  /** Why a guard refused: a `ForbiddenException`, or an error thrown by the
      patient lookup and passed on unchanged. */
  datatype Denial = Forbidden(message: string) | LookupFailed(message: string)

  /** `request.user || {role: "admin"}` */
  function EffectiveUser(user: Option<seq<Field>>): (u: seq<Field>)
    ensures user.Some? ==> u == user.value
  {
    if user.Some? then user.value else [Field("role", Str("admin"))]
  }

  /** `user.role === 'admin'` */
  predicate IsAdmin(u: seq<Field>) {
    StrictEquals(Lookup(u, "role"), Str("admin"))
  }

  /** `canActivate`: `Ok(true)` or a refusal, never `Ok(false)`. */
  function CanActivate(user: Option<seq<Field>>): (r: Result<bool, Denial>)
    ensures r.Ok? ==> r.value
    ensures r.Ok? <==> user.None? || Lookup(user.value, "role") == Str("admin")
    ensures r.Err? ==> r.error == Forbidden(FORBIDDEN)
  {
    var u := EffectiveUser(user);
    if !Truthy(Obj(u)) then Err(Forbidden(NOT_AUTHENTICATED))
    else if IsAdmin(u) then Ok(true)
    else Err(Forbidden(FORBIDDEN))
  }

  /** The defaulted user is an administrator, and the "not authenticated"
      refusal is never produced. */
  lemma MissingUserIsAdmin(user: Option<seq<Field>>)
    ensures IsAdmin(EffectiveUser(None))
    ensures CanActivate(user) != Err(Forbidden(NOT_AUTHENTICATED))
  {
  }
}
