/** `RoleGuard`: protects a route by role. */
module RoleGuard {
  import opened Wrappers
  import opened Views
  import UseAuth

  const DefaultRedirect: string := "/dashboard"

  /** The guard's decision, checked in order: loading, signed out, wrong
      role, allowed. */
  function GuardView(a: UseAuth.AuthState, roles: UseAuth.RequiredRole, redirectTo: Option<string>,
                     fallback: Option<Node>, children: Node): (v: View)
    ensures a.isPending ==> v == Loading
    ensures !a.isPending && !UseAuth.IsAuthenticated(a) ==> v == Navigate("/login")
    ensures !a.isPending && UseAuth.IsAuthenticated(a) ==>
      (UseAuth.HasRole(a, roles) ==> v == Show(Some(children)))
    ensures !a.isPending && UseAuth.IsAuthenticated(a) && !UseAuth.HasRole(a, roles) ==>
      v == if fallback.Some? then Show(fallback) else Navigate(redirectTo.GetOr(DefaultRedirect))
  {
    if a.isPending then Loading
    else if !UseAuth.IsAuthenticated(a) then Navigate("/login")
    else if !UseAuth.HasRole(a, roles) then
      if fallback.Some? then Show(fallback) else Navigate(redirectTo.GetOr(DefaultRedirect))
    else Show(Some(children))
  }

  /** A signed-in user without a role is turned away whatever roles are
      asked for, even an empty list. */
  lemma NoRoleTurnedAway(a: UseAuth.AuthState, roles: UseAuth.RequiredRole, redirectTo: Option<string>,
                         fallback: Option<Node>, children: Node)
    requires !a.isPending && a.session.Some? && a.session.value.role.None?
    ensures GuardView(a, roles, redirectTo, fallback, children)
      == if fallback.Some? then Show(fallback) else Navigate(redirectTo.GetOr(DefaultRedirect))
  {
  }
}
