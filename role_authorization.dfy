/**
 * The role-based access middleware (backend/middleware/roleAuthorization.js):
 * `roleAuthorization(allowedRoles)` lets a request through exactly when its
 * authenticated user carries a role that the list names.
 */
module RoleAuthorization {
  import opened Common

  /** What the middleware does with a request: call `next()` or answer 403. */
  datatype Decision = Next | Forbidden(code: nat, message: string)

  const NoRole: string := "Forbidden: No valid user role found."
  const NotPermitted: string := "Forbidden: You do not have permission to access this resource."

  /**
   * The decision for a request whose `req.user` is `user` (None when the
   * request is not authenticated) with `user.role` given as an optional
   * string. A missing or empty role is refused before the list is looked
   * at; otherwise the role's membership in `allowedRoles` alone decides.
   */
  function Authorize(allowedRoles: seq<string>, user: Option<Option<string>>): (d: Decision)
    ensures d.Next? <==> user.Some? && Truthy(user.value) && user.value.value in allowedRoles
    ensures (user.None? || !Truthy(user.value)) ==> d == Forbidden(403, NoRole)
    ensures (user.Some? && Truthy(user.value) && user.value.value !in allowedRoles) ==>
      d == Forbidden(403, NotPermitted)
    ensures allowedRoles == [] ==> d.Forbidden?
  {
    if user.None? || !Truthy(user.value) then Forbidden(403, NoRole)
    else if user.value.value !in allowedRoles then Forbidden(403, NotPermitted)
    else Next
  }

  /**
   * Only the set of roles listed matters: two lists naming the same roles,
   * in any order and with any repetition, decide every request alike, and
   * adding roles to a list never turns away a request it let through.
   */
  lemma AuthorizeDependsOnRoleSet(allowed: seq<string>, wider: seq<string>, user: Option<Option<string>>)
    requires forall r :: r in allowed ==> r in wider
    ensures Authorize(allowed, user).Next? ==> Authorize(wider, user).Next?
    ensures (forall r :: r in wider ==> r in allowed) ==> Authorize(allowed, user) == Authorize(wider, user)
  {
  }
}
