/** `RolesGuard`: lets a request through only when the user an earlier guard
    attached is an administrator. It verifies no token itself. */
module RolesGuard {
  import opened Domain
  import opened Http

  /** `canActivate`: `false` without a user or for a non-admin user, `true`
      for an admin. It only reads `request.user`. */
  function CanActivate(request: Request): (r: bool)
    reads request
    ensures r <==> request.user.Some? && request.user.value.role == admin
  {
    if request.user.None? then false
    else if request.user.value.role != admin then false
    else true
  }

  /** The answer depends on `request.user` alone: headers, URL or anything a
      token would say are not consulted. */
  lemma DependsOnlyOnUser(a: Request, b: Request)
    requires a.user == b.user
    ensures CanActivate(a) == CanActivate(b)
  {
  }
}
