/** `listUsers`: how the user-list parameters become the admin query. */
module UsersApi {
  import opened Wrappers

  /** The optional parameters of a user listing. */
  datatype ListUsersParams = ListUsersParams(
    limit: Option<int>, offset: Option<int>, sortBy: Option<string>, sortDirection: Option<string>,
    searchValue: Option<string>, searchField: Option<string>, role: Option<string>, banned: Option<bool>)

  const NoParams := ListUsersParams(None, None, None, None, None, None, None, None)

  datatype FilterField = RoleField | BannedField

  /** The query handed to the admin client. */
  datatype Query = Query(
    limit: Option<int>, offset: Option<int>, sortBy: Option<string>, sortDirection: Option<string>,
    searchValue: Option<string>, searchField: Option<string>,
    filterField: Option<FilterField>, filterValue: Option<string>)

  /** `String(b)`. */
  function BoolString(b: bool): string {
    if b then "true" else "false"
  }

  /** The query for `params` (absent parameters read as all fields absent).
      A non-empty role filters on the role; otherwise a given `banned`
      filters on the ban flag rendered as text; otherwise nothing is
      filtered. The other fields pass through. */
  function ListUsersQuery(params: Option<ListUsersParams>): (q: Query)
    ensures var p := params.GetOr(NoParams);
      && q.limit == p.limit && q.offset == p.offset && q.sortBy == p.sortBy
      && q.sortDirection == p.sortDirection && q.searchValue == p.searchValue && q.searchField == p.searchField
    ensures var p := params.GetOr(NoParams);
      TruthyString(p.role) ==> q.filterField == Some(RoleField) && q.filterValue == p.role
    ensures var p := params.GetOr(NoParams);
      !TruthyString(p.role) && p.banned.Some? ==>
        q.filterField == Some(BannedField) && q.filterValue == Some(BoolString(p.banned.value))
    ensures var p := params.GetOr(NoParams);
      !TruthyString(p.role) && p.banned.None? ==> q.filterField == None && q.filterValue == None
  {
    var p := params.GetOr(NoParams);
    var field := if TruthyString(p.role) then Some(RoleField)
      else if p.banned.Some? then Some(BannedField) else None;
    var value := if TruthyString(p.role) then p.role
      else if p.banned.Some? then Some(BoolString(p.banned.value)) else None;
    Query(p.limit, p.offset, p.sortBy, p.sortDirection, p.searchValue, p.searchField, field, value)
  }

  /** The filter field and value are present together, and the value of
      a ban filter is always one of the two texts. */
  lemma FilterFieldAndValueTogether(params: Option<ListUsersParams>)
    ensures ListUsersQuery(params).filterField.Some? <==> ListUsersQuery(params).filterValue.Some?
    ensures ListUsersQuery(params).filterField == Some(BannedField) ==>
      ListUsersQuery(params).filterValue.value in {"true", "false"}
  {
  }

  /** The role takes precedence: with a role given, `banned` is ignored. */
  lemma RoleTakesPrecedence(p: ListUsersParams, banned: Option<bool>)
    requires TruthyString(p.role)
    ensures ListUsersQuery(Some(p.(banned := banned))) == ListUsersQuery(Some(p))
  {
  }
}
