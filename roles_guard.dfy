/** RolesGuard.canActivate (roles.guard.ts): a route without role metadata
    is open; otherwise the caller's role must be one of the required roles. */
module RolesGuard {
  import opened Common

  /** `requiredRoles.some((role) => user.role === role)`, scanning the list. */
  function SomeMatches(required: seq<Role>, role: Role): (found: bool)
    ensures found <==> role in required
  {
    if required == [] then false
    else required[0] == role || SomeMatches(required[1..], role)
  }

  /** `required` is the `roles` metadata, absent when the route has none.
      An empty list is present (an array is truthy), so it is not "no
      metadata". */
  function CanActivate(required: Option<seq<Role>>, role: Role): (allowed: bool)
    ensures required.None? ==> allowed
    ensures required.Some? ==> (allowed <==> role in required.value)
  {
    match required
    case None => true
    case Some(roles) => SomeMatches(roles, role)
  }

  /** `@Roles()` with no roles shuts the route for every caller. */
  lemma EmptyRequiredDeniesEveryone(role: Role)
    ensures !CanActivate(Some([]), role)
  {
  }

  /** Requiring more roles never turns an allow into a deny. */
  lemma MoreRolesNeverDeny(required: seq<Role>, more: seq<Role>, role: Role)
    requires forall r :: r in required ==> r in more
    ensures CanActivate(Some(required), role) ==> CanActivate(Some(more), role)
  {
  }
}
