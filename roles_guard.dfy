/**
 * The role guard: a handler declares the roles allowed to call it; a request
 * without such a declaration passes, a request without an authenticated user is
 * refused with an authentication error, and otherwise the user's role must be
 * one of the declared roles (a mismatch denies without raising).
 */
module RolesGuard {
  import opened Wrappers

  datatype UserRole = MasterRole | DirectorRole | CallcentreAdmin | CallcentreOperator
  {
    function Value(): string
    {
      match this
      case MasterRole => "master"
      case DirectorRole => "director"
      case CallcentreAdmin => "admin"
      case CallcentreOperator => "operator"
    }
  }

  /** The claim the guard reads from `request.user`. */
  datatype RequestUser = RequestUser(login: string, role: string)

  datatype Decision = Allow | Deny | Unauthorized(message: string)

  const NotAuthenticated: string := "User not authenticated"

  /** `requiredRoles.some(role => user.role === role)` */
  function HasRole(required: seq<UserRole>, role: string): (r: bool)
    ensures r <==> exists i :: 0 <= i < |required| && required[i].Value() == role
  {
    if required == [] then false
    else required[0].Value() == role || HasRole(required[1..], role)
  }

  /** `RolesGuard.canActivate` */
  function CanActivate(requiredRoles: Option<seq<UserRole>>, user: Option<RequestUser>): (d: Decision)
    ensures requiredRoles.None? ==> d == Allow
    ensures requiredRoles.Some? && user.None? ==> d == Unauthorized(NotAuthenticated)
    ensures requiredRoles.Some? && user.Some? ==>
      (d == Allow <==> exists i :: 0 <= i < |requiredRoles.value| && requiredRoles.value[i].Value() == user.value.role)
    ensures d != Allow && user.Some? ==> d == Deny
  {
    if requiredRoles.None? then Allow
    else if user.None? then Unauthorized(NotAuthenticated)
    else if HasRole(requiredRoles.value, user.value.role) then Allow
    else Deny
  }

  /** A declared but empty role list turns every authenticated user away. */
  lemma EmptyRolesDenyAll(user: RequestUser)
    ensures CanActivate(Some([]), Some(user)) == Deny
  {
  }
}
