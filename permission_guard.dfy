/** `PermissionGuard`: protects a route by permissions, redirecting users
    who lack them. */
module PermissionGuard {
  import opened Wrappers
  import opened Views
  import AccessControl
  import UseAuth
  import Can

  const DefaultRedirect: string := "/dashboard"

  /** The guard's decision, checked in order: loading, signed out, denied, granted. */
  function GuardView(a: UseAuth.AuthState, resource: AccessControl.Resource, prop: Can.PermissionsProp,
                     requireAll: Option<bool>, redirectTo: Option<string>, fallback: Option<Node>, children: Node): (v: View)
    ensures a.isPending ==> v == Loading
    ensures !a.isPending && !UseAuth.IsAuthenticated(a) ==> v == Navigate("/login")
    ensures !a.isPending && UseAuth.IsAuthenticated(a) ==>
      (Can.Granted(a, resource, prop, requireAll) ==> v == Show(Some(children)))
    ensures !a.isPending && UseAuth.IsAuthenticated(a) && !Can.Granted(a, resource, prop, requireAll) ==>
      v == if fallback.Some? then Show(fallback) else Navigate(redirectTo.GetOr(DefaultRedirect))
  {
    if a.isPending then Loading
    else if !UseAuth.IsAuthenticated(a) then Navigate("/login")
    else if !Can.Granted(a, resource, prop, requireAll) then
      if fallback.Some? then Show(fallback) else Navigate(redirectTo.GetOr(DefaultRedirect))
    else Show(Some(children))
  }

  /** Past loading and sign-in the guard renders what `Can` with the same
      props renders, except that where `Can` would show nothing (denied,
      no fallback) the guard redirects. */
  lemma GuardAgreesWithCan(a: UseAuth.AuthState, resource: AccessControl.Resource, prop: Can.PermissionsProp,
                           requireAll: Option<bool>, redirectTo: Option<string>, fallback: Option<Node>, children: Node)
    requires !a.isPending && UseAuth.IsAuthenticated(a)
    ensures Can.Granted(a, resource, prop, requireAll) || fallback.Some? ==>
      GuardView(a, resource, prop, requireAll, redirectTo, fallback, children)
        == Can.CanView(a, resource, prop, requireAll, fallback, children)
    ensures !Can.Granted(a, resource, prop, requireAll) && fallback.None? ==>
      && GuardView(a, resource, prop, requireAll, redirectTo, fallback, children) == Navigate(redirectTo.GetOr(DefaultRedirect))
      && Can.CanView(a, resource, prop, requireAll, fallback, children) == Show(None)
  {
  }
}
