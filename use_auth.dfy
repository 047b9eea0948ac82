/** The frontend's view of the signed-in user: the permission checks of the
    shared contracts applied to the session user's role, and role tests. */
module UseAuth {
  import opened Wrappers
  import AccessControl

  /** The session user; `role` may be missing. */
  datatype SessionUser = SessionUser(role: Option<string>)

  /** What the session hook reports: the session (absent while signed out
      or loading) and whether it is still loading. */
  datatype AuthState = AuthState(session: Option<SessionUser>, isPending: bool)

  /** `session?.user?.role`. */
  function Role(a: AuthState): (r: Option<string>)
    ensures a.session.None? ==> r.None?
  {
    if a.session.Some? then a.session.value.role else None
  }

  /** `isAuthenticated: !!session`; signed out, there is no role to test. */
  function IsAuthenticated(a: AuthState): (b: bool)
    ensures b <==> a.session.Some?
    ensures !b ==> Role(a).None?
  {
    a.session.Some?
  }

  /** `checkPermission(resource, permission)`. */
  function CheckPermission(a: AuthState, resource: AccessControl.Resource, permission: AccessControl.Permission): (b: bool)
    ensures b ==> IsAuthenticated(a) && TruthyString(Role(a))
    ensures a.session.Some? ==> b == AccessControl.HasPermission(a.session.value.role, resource, permission)
  {
    AccessControl.HasPermission(Role(a), resource, permission)
  }

  /** `checkAnyPermission(resource, permissions)`. */
  function CheckAnyPermission(a: AuthState, resource: AccessControl.Resource, permissions: seq<AccessControl.Permission>): (b: bool)
    ensures b <==> exists i :: 0 <= i < |permissions| && CheckPermission(a, resource, permissions[i])
  {
    AccessControl.HasAnyPermission(Role(a), resource, permissions)
  }

  /** `checkAllPermissions(resource, permissions)`. */
  function CheckAllPermissions(a: AuthState, resource: AccessControl.Resource, permissions: seq<AccessControl.Permission>): (b: bool)
    ensures b <==> forall i :: 0 <= i < |permissions| ==> CheckPermission(a, resource, permissions[i])
  {
    AccessControl.HasAllPermissions(Role(a), resource, permissions)
  }

  /** The argument of `hasRole`: one role or a list of roles. */
  datatype RequiredRole = OneRole(name: string) | RoleList(names: seq<string>)

  /** `hasRole(required)`: false without a role; membership for a list,
      equality for a single role. */
  function HasRole(a: AuthState, required: RequiredRole): (b: bool)
    ensures !TruthyString(Role(a)) ==> !b
    ensures TruthyString(Role(a)) && required.RoleList? ==> (b <==> Role(a).value in required.names)
    ensures TruthyString(Role(a)) && required.OneRole? ==> (b <==> Role(a).value == required.name)
  {
    if !TruthyString(Role(a)) then false
    else
      match required
      case RoleList(names) => Role(a).value in names
      case OneRole(name) => Role(a).value == name
  }

  /** `isAdmin()`: only a signed-in user whose role is `admin`. */
  function IsAdmin(a: AuthState): (b: bool)
    ensures b ==> IsAuthenticated(a)
    ensures b <==> Role(a) == Some("admin")
  {
    Role(a) == Some("admin")
  }

  /** `isRegular()`: only a signed-in user whose role is `regular`. */
  function IsRegular(a: AuthState): (b: bool)
    ensures b ==> IsAuthenticated(a)
    ensures b <==> Role(a) == Some("regular")
  {
    Role(a) == Some("regular")
  }

  /** No user is both; each test agrees with `hasRole` on that one role. */
  lemma RoleTests(a: AuthState)
    ensures !(IsAdmin(a) && IsRegular(a))
    ensures IsAdmin(a) <==> HasRole(a, OneRole("admin"))
    ensures IsRegular(a) <==> HasRole(a, RoleList(["regular"]))
  {
  }
}
