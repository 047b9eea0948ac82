/** The shared role-based access control tables and the permission checks
    built on them. */
module AccessControl {
  import opened Wrappers

  datatype Permission = Create | Share | Update | Delete | Read | Revoke | Invite | Reserve | Approve | Disapprove

  datatype Resource = Signup | Docs | User | Session | Account | Apikey | Test

  /** What one role may do: a permission list per listed resource. */
  type RolePermissions = map<Resource, seq<Permission>>

  const Crud: seq<Permission> := [Create, Read, Update, Delete]

  const AdminPermissions: RolePermissions := map[
    Signup := [Create, Read, Update, Delete, Approve, Disapprove, Invite],
    Docs := [Read],
    User := Crud,
    Session := Crud,
    Account := Crud,
    Apikey := Crud
  ]

  const RegularPermissions: RolePermissions := map[Test := [Read]]

  const RolePermissionsMap: map<string, RolePermissions> := map["admin" := AdminPermissions, "regular" := RegularPermissions]

  /** `hasPermission(role, resource, permission)`: the role must be present
      and non-empty, be a known role, list the resource, and list the
      permission for it. */
  function HasPermission(role: Option<string>, resource: Resource, permission: Permission): (b: bool)
    ensures !TruthyString(role) ==> !b
    ensures TruthyString(role) && role.value !in RolePermissionsMap ==> !b
    ensures b <==>
      && TruthyString(role) && role.value in RolePermissionsMap
      && resource in RolePermissionsMap[role.value]
      && permission in RolePermissionsMap[role.value][resource]
  {
    if !TruthyString(role) then false
    else if role.value !in RolePermissionsMap then false
    else
      var permissions := RolePermissionsMap[role.value];
      if resource !in permissions then false
      else permission in permissions[resource]
  }

  /** `hasAnyPermission`: `permissions.some(...)`. */
  function HasAnyPermission(role: Option<string>, resource: Resource, permissions: seq<Permission>): (b: bool)
    ensures b <==> exists i :: 0 <= i < |permissions| && HasPermission(role, resource, permissions[i])
    decreases |permissions|
  {
    if |permissions| == 0 then false
    else if HasPermission(role, resource, permissions[0]) then true
    else
      var rest := HasAnyPermission(role, resource, permissions[1..]);
      assert forall i :: 1 <= i < |permissions| ==> permissions[i] == permissions[1..][i - 1];
      rest
  }

  /** `hasAllPermissions`: `permissions.every(...)`. */
  function HasAllPermissions(role: Option<string>, resource: Resource, permissions: seq<Permission>): (b: bool)
    ensures b <==> forall i :: 0 <= i < |permissions| ==> HasPermission(role, resource, permissions[i])
    decreases |permissions|
  {
    if |permissions| == 0 then true
    else if !HasPermission(role, resource, permissions[0]) then false
    else
      var rest := HasAllPermissions(role, resource, permissions[1..]);
      assert forall i :: 1 <= i < |permissions| ==> permissions[i] == permissions[1..][i - 1];
      rest
  }

  /** An empty list grants nothing under any-of and everything under all-of,
      even without a role. */
  lemma EmptyPermissionLists(role: Option<string>, resource: Resource)
    ensures !HasAnyPermission(role, resource, [])
    ensures HasAllPermissions(None, resource, [])
  {
  }

  /** For a non-empty list, all-of implies any-of. */
  lemma AllImpliesAny(role: Option<string>, resource: Resource, permissions: seq<Permission>)
    requires |permissions| > 0
    requires HasAllPermissions(role, resource, permissions)
    ensures HasAnyPermission(role, resource, permissions)
  {
    assert HasPermission(role, resource, permissions[0]);
  }

  /** Facts about the tables: the admin holds nothing on `test`, the
      regular role holds only `test:read`, and no role holds `revoke`,
      `share` or `reserve` on anything. */
  lemma RoleTableFacts(role: Option<string>, resource: Resource, permission: Permission)
    ensures !HasPermission(Some("admin"), Test, permission)
    ensures HasPermission(Some("regular"), resource, permission) <==> resource == Test && permission == Read
    ensures permission in {Revoke, Share, Reserve} ==> !HasPermission(role, resource, permission)
  {
  }

  /** The admin may read the documentation; the regular role may not. */
  lemma DocsReaders()
    ensures HasPermission(Some("admin"), Docs, Read)
    ensures !HasPermission(Some("regular"), Docs, Read)
  {
  }
}
