/** `Can` and `Cannot`: render children, or not, by the signed-in user's
    permissions on one resource. */
module Can {
  import opened Wrappers
  import opened Views
  import AccessControl
  import UseAuth

  /** The `permissions` prop: one permission or a list. */
  datatype PermissionsProp = Single(p: AccessControl.Permission) | Many(ps: seq<AccessControl.Permission>)

  function PermissionsArray(prop: PermissionsProp): seq<AccessControl.Permission> {
    match prop
    case Single(p) => [p]
    case Many(ps) => ps
  }

  /** The grant rule: exactly one permission is checked on its own,
      whatever `requireAll` says; more or fewer use all-of when
      `requireAll` (default false), else any-of. */
  function Granted(a: UseAuth.AuthState, resource: AccessControl.Resource, prop: PermissionsProp, requireAll: Option<bool>): (b: bool)
    ensures var ps := PermissionsArray(prop);
      |ps| == 1 ==> b == UseAuth.CheckPermission(a, resource, ps[0])
    ensures var ps := PermissionsArray(prop);
      |ps| != 1 && requireAll == Some(true) ==> (b <==> forall i :: 0 <= i < |ps| ==> UseAuth.CheckPermission(a, resource, ps[i]))
    ensures var ps := PermissionsArray(prop);
      |ps| != 1 && requireAll != Some(true) ==> (b <==> exists i :: 0 <= i < |ps| && UseAuth.CheckPermission(a, resource, ps[i]))
  {
    var ps := PermissionsArray(prop);
    if |ps| == 1 then UseAuth.CheckPermission(a, resource, ps[0])
    else if requireAll.GetOr(false) then UseAuth.CheckAllPermissions(a, resource, ps)
    else UseAuth.CheckAnyPermission(a, resource, ps)
  }

  /** An empty list is granted exactly when all-of was asked for. */
  lemma EmptyListGranted(a: UseAuth.AuthState, resource: AccessControl.Resource, requireAll: Option<bool>)
    ensures Granted(a, resource, Many([]), requireAll) <==> requireAll == Some(true)
  {
  }

  /** `Can`: the children when signed in and granted, the fallback
      (default `null`) otherwise. */
  function CanView(a: UseAuth.AuthState, resource: AccessControl.Resource, prop: PermissionsProp,
                   requireAll: Option<bool>, fallback: Option<Node>, children: Node): (v: View)
    ensures v == Show(Some(children)) || v == Show(fallback)
    ensures !UseAuth.IsAuthenticated(a) ==> v == Show(fallback)
    ensures UseAuth.IsAuthenticated(a) && Granted(a, resource, prop, requireAll) ==> v == Show(Some(children))
    ensures UseAuth.IsAuthenticated(a) && !Granted(a, resource, prop, requireAll) ==> v == Show(fallback)
  {
    if !UseAuth.IsAuthenticated(a) then Show(fallback)
    else if !Granted(a, resource, prop, requireAll) then Show(fallback)
    else Show(Some(children))
  }

  /** `Cannot`: the children when signed out or not granted, nothing otherwise. */
  function CannotView(a: UseAuth.AuthState, resource: AccessControl.Resource, prop: PermissionsProp,
                      requireAll: Option<bool>, children: Node): (v: View)
    ensures v == Show(Some(children)) || v == Show(None)
    ensures !UseAuth.IsAuthenticated(a) ==> v == Show(Some(children))
    ensures UseAuth.IsAuthenticated(a) ==> (v == Show(Some(children)) <==> !Granted(a, resource, prop, requireAll))
  {
    if !UseAuth.IsAuthenticated(a) then Show(Some(children))
    else if Granted(a, resource, prop, requireAll) then Show(None)
    else Show(Some(children))
  }

  /** For a signed-in user `Cannot` shows its children exactly when `Can`
      with the same props would not; a signed-out user sees the children of
      `Cannot` and the fallback of `Can`. */
  lemma CannotIsCanNegated(a: UseAuth.AuthState, resource: AccessControl.Resource, prop: PermissionsProp,
                           requireAll: Option<bool>, children: Node)
    ensures UseAuth.IsAuthenticated(a) ==>
      ((CannotView(a, resource, prop, requireAll, children) == Show(Some(children)))
        <==> (CanView(a, resource, prop, requireAll, None, children) == Show(None)))
    ensures !UseAuth.IsAuthenticated(a) ==>
      CannotView(a, resource, prop, requireAll, children) == Show(Some(children))
      && CanView(a, resource, prop, requireAll, None, children) == Show(None)
  {
  }
}
