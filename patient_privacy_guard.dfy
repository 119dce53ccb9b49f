/** `PatientPrivacyGuard`: administrators pass; anyone else passes only for
    their own patient record. */
module PatientPrivacy {
  import opened Wrappers
  import opened JsonValues
  import opened AdminAccess

  /** `request?.params?.id || request?.body?.id` */
  function PatientId(params: Json, body: Json): (id: Json)
    ensures Truthy(Prop(params, "id")) ==> id == Prop(params, "id")
    ensures !Truthy(Prop(params, "id")) ==> id == Prop(body, "id")
  {
    if Truthy(Prop(params, "id")) then Prop(params, "id") else Prop(body, "id")
  }

  /** The guard's answer and the ids it handed to `findById`, in order. */
  datatype Decision = Decision(result: Result<bool, Denial>, lookups: seq<Json>)

  /** `canActivate`, with `patientsService.findById` as `findById`. */
  function CanActivate(user: Option<seq<Field>>, params: Json, body: Json,
                       findById: Json -> Result<seq<Field>, string>): (d: Decision)
    ensures d.result.Ok? ==> d.result.value
    ensures var u := EffectiveUser(user); IsAdmin(u) ==> d == Decision(Ok(true), [])
    ensures var u, pid := EffectiveUser(user), PatientId(params, body);
      !IsAdmin(u) ==>
        && d.lookups == (if Truthy(pid) then [pid] else [])
        && (d.result == Ok(true) <==>
              Truthy(pid) && findById(pid).Ok? && StrictEquals(Lookup(findById(pid).value, "id"), Lookup(u, "patientId")))
        && (d.result.Err? ==>
              (d.result.error == Forbidden(FORBIDDEN)
               || (Truthy(pid) && findById(pid).Err? && d.result.error == LookupFailed(findById(pid).error))))
  {
    var u := EffectiveUser(user);
    var patientId := PatientId(params, body);
    if !Truthy(Obj(u)) then Decision(Err(Forbidden(NOT_AUTHENTICATED)), [])
    else if IsAdmin(u) then Decision(Ok(true), [])
    else if Truthy(patientId) then
      match findById(patientId)
      case Err(e) => Decision(Err(LookupFailed(e)), [patientId])
      case Ok(patient) =>
        if StrictEquals(Lookup(patient, "id"), Lookup(u, "patientId")) then Decision(Ok(true), [patientId])
        else Decision(Err(Forbidden(FORBIDDEN)), [patientId])
    else Decision(Err(Forbidden(FORBIDDEN)), [])
  }

  /** A request without a user passes without any lookup; a non-admin
      without a patient id is refused without any lookup; a patient reading
      their own record passes. */
  lemma PrivacyCases(user: Option<seq<Field>>, params: Json, body: Json,
                     findById: Json -> Result<seq<Field>, string>, own: string)
    ensures CanActivate(None, params, body, findById) == Decision(Ok(true), [])
    ensures user.Some? && !IsAdmin(user.value) && !Truthy(PatientId(params, body)) ==>
      CanActivate(user, params, body, findById) == Decision(Err(Forbidden(FORBIDDEN)), [])
    ensures (user.Some? && !IsAdmin(user.value) && Lookup(user.value, "patientId") == Str(own)
             && PatientId(params, body) == Str(own) && own != ""
             && findById(Str(own)).Ok? && Lookup(findById(Str(own)).value, "id") == Str(own)) ==>
      CanActivate(user, params, body, findById).result == Ok(true)
  {
  }
}
