/** The users table: the request it derives from its state, its
    pagination arithmetic, its state transitions and the avatar initials. */
module UsersTable {
  import opened Wrappers
  import Strings
  import UsersApi

  // ---------------------------------------------------------------------
  // the request

  /** The offset of the first row of `page` (pages count from 1). */
  function Offset(page: int, pageSize: int): (o: int)
    ensures page == 1 ==> o == 0
    ensures page >= 1 && pageSize >= 0 ==> o >= 0
    ensures o + pageSize == page * pageSize
  {
    (page - 1) * pageSize
  }

  /** The listing parameters for the current state. An empty search sends
      neither the search text nor the search field; `all` means no role or
      ban filter; the ban filter is true exactly for the text "true". */
  function RequestParams(searchValue: string, searchField: string, roleFilter: string,
                         bannedFilter: string, page: int, pageSize: int): (p: UsersApi.ListUsersParams)
    ensures p.limit == Some(pageSize) && p.offset == Some(Offset(page, pageSize))
    ensures p.sortBy == None && p.sortDirection == None
    ensures p.searchValue.Some? <==> searchValue != ""
    ensures p.searchValue.Some? ==> p.searchValue.value == searchValue
    ensures p.searchField == if searchValue != "" then Some(searchField) else None
    ensures p.role == if roleFilter != "all" then Some(roleFilter) else None
    ensures p.banned == if bannedFilter != "all" then Some(bannedFilter == "true") else None
  {
    UsersApi.ListUsersParams(
      Some(pageSize), Some(Offset(page, pageSize)), None, None,
      if searchValue != "" then Some(searchValue) else None,
      if searchValue != "" then Some(searchField) else None,
      if roleFilter != "all" then Some(roleFilter) else None,
      if bannedFilter != "all" then Some(bannedFilter == "true") else None)
  }

  /** The role filter shadows the ban filter in the query the table sends:
      with a role chosen, the ban selection has no effect. */
  lemma RoleFilterShadowsBanFilter(searchValue: string, searchField: string, roleFilter: string,
                                   banned1: string, banned2: string, page: int, pageSize: int)
    requires roleFilter != "all" && roleFilter != ""
    ensures UsersApi.ListUsersQuery(Some(RequestParams(searchValue, searchField, roleFilter, banned1, page, pageSize)))
         == UsersApi.ListUsersQuery(Some(RequestParams(searchValue, searchField, roleFilter, banned2, page, pageSize)))
  {
  }

  // ---------------------------------------------------------------------
  // pagination arithmetic

  /** `Math.ceil(total / pageSize)`, or 0 while there is no data. */
  function TotalPages(hasData: bool, total: nat, pageSize: nat): (n: nat)
    requires pageSize > 0
    ensures !hasData ==> n == 0
    ensures hasData ==> (n - 1) * pageSize < total <= n * pageSize || (total == 0 && n == 0)
  {
    if !hasData then 0 else (total + pageSize - 1) / pageSize
  }

  /** The page count shown in the label: never 0. */
  function PageLabel(totalPages: nat): (n: nat)
    ensures n >= 1 && (totalPages > 0 ==> n == totalPages)
  {
    if totalPages == 0 then 1 else totalPages
  }

  /** The first row number shown: 0 when the page has no users. */
  function RangeStart(usersEmpty: bool, page: int, pageSize: int): (r: int)
    ensures usersEmpty ==> r == 0
    ensures !usersEmpty ==> r == Offset(page, pageSize) + 1
  {
    if usersEmpty then 0 else (page - 1) * pageSize + 1
  }

  /** The last row number shown: `Math.min(page * pageSize, total)`. */
  function RangeEnd(page: int, pageSize: int, total: int): (r: int)
    ensures r <= page * pageSize && r <= total
    ensures r == page * pageSize || r == total
  {
    if page * pageSize < total then page * pageSize else total
  }

  /** On a page within the page count, the shown range is non-empty, lies
      within the total and spans at most one page. */
  lemma RangeWithinTotal(page: nat, pageSize: nat, total: nat)
    requires pageSize > 0 && 1 <= page <= TotalPages(true, total, pageSize)
    ensures 1 <= RangeStart(false, page, pageSize) <= RangeEnd(page, pageSize, total) <= total
    ensures RangeEnd(page, pageSize, total) - RangeStart(false, page, pageSize) < pageSize
  {
    var n := TotalPages(true, total, pageSize);
    assert (page - 1) * pageSize <= (n - 1) * pageSize by {
      MulMonotone(page - 1, n - 1, pageSize);
    }
  }

  lemma MulMonotone(a: nat, b: nat, k: nat)
    requires a <= b
    ensures a * k <= b * k
  {
  }

  /** The page after Previous: never below 1. */
  function PreviousPage(page: int): (p: int)
    ensures p >= 1 && p <= if page > 1 then page else 1
    ensures page > 1 ==> p == page - 1
  {
    if 1 > page - 1 then 1 else page - 1
  }

  /** The page after Next: never beyond the page count. */
  function NextPage(page: int, totalPages: int): (p: int)
    ensures p <= totalPages && p <= page + 1
    ensures page < totalPages ==> p == page + 1
    ensures page >= totalPages ==> p == totalPages
  {
    if totalPages < page + 1 then totalPages else page + 1
  }

  predicate PreviousDisabled(page: int) {
    page == 1
  }

  predicate NextDisabled(page: int, totalPages: int) {
    page == totalPages || totalPages == 0
  }

  /** Whenever Next is enabled on a valid page, it keeps the page valid. */
  lemma NextKeepsPageValid(page: int, totalPages: int)
    requires page >= 1 && !NextDisabled(page, totalPages) && totalPages >= 0
    ensures 1 <= NextPage(page, totalPages) <= totalPages
  {
  }

  // ---------------------------------------------------------------------
  // the component state

  class UsersTableState {
    var searchValue: string
    var searchField: string
    var roleFilter: string
    var bannedFilter: string
    var page: int
    var pageSize: nat

    ghost predicate Valid()
      reads this
    {
      page >= 1 && pageSize > 0
    }

    /** The clear-filters button is shown. */
    predicate HasFilters()
      reads this
    {
      searchValue != "" || roleFilter != "all" || bannedFilter != "all"
    }

    /** The initial state: no search (by name), all roles and statuses,
        the first page of ten rows. */
    constructor ()
      ensures searchValue == "" && searchField == "name" && roleFilter == "all" && bannedFilter == "all"
      ensures page == 1 && pageSize == 10
      ensures Valid() && !HasFilters()
    {
      searchValue, searchField, roleFilter, bannedFilter := "", "name", "all", "all";
      page, pageSize := 1, 10;
    }

    /** The parameters of the listing request in this state. */
    function Request(): UsersApi.ListUsersParams
      reads this
    {
      RequestParams(searchValue, searchField, roleFilter, bannedFilter, page, pageSize)
    }

    /** Typing in the search box: back to page 1. */
    method SetSearch(v: string)
      requires Valid()
      modifies this
      ensures Valid()
      ensures searchValue == v && page == 1
      ensures searchField == old(searchField) && roleFilter == old(roleFilter)
      ensures bannedFilter == old(bannedFilter) && pageSize == old(pageSize)
    {
      searchValue := v;
      page := 1;
    }

    /** Choosing the search field keeps the page. */
    method SetSearchField(f: string)
      requires Valid()
      modifies this
      ensures Valid()
      ensures searchField == f
      ensures searchValue == old(searchValue) && roleFilter == old(roleFilter)
      ensures bannedFilter == old(bannedFilter) && page == old(page) && pageSize == old(pageSize)
    {
      searchField := f;
    }

    /** Choosing a role filter: back to page 1. */
    method SetRoleFilter(v: string)
      requires Valid()
      modifies this
      ensures Valid()
      ensures roleFilter == v && page == 1
      ensures searchValue == old(searchValue) && searchField == old(searchField)
      ensures bannedFilter == old(bannedFilter) && pageSize == old(pageSize)
    {
      roleFilter := v;
      page := 1;
    }

    /** Choosing a status filter: back to page 1. */
    method SetBannedFilter(v: string)
      requires Valid()
      modifies this
      ensures Valid()
      ensures bannedFilter == v && page == 1
      ensures searchValue == old(searchValue) && searchField == old(searchField)
      ensures roleFilter == old(roleFilter) && pageSize == old(pageSize)
    {
      bannedFilter := v;
      page := 1;
    }

    /** Choosing the rows per page: back to page 1. */
    method SetPageSize(n: nat)
      requires Valid() && n > 0
      modifies this
      ensures Valid()
      ensures pageSize == n && page == 1
      ensures searchValue == old(searchValue) && searchField == old(searchField)
      ensures roleFilter == old(roleFilter) && bannedFilter == old(bannedFilter)
    {
      pageSize := n;
      page := 1;
    }

    /** `clearFilters`: no search text, all roles and statuses, page 1;
        the search field and page size stay. */
    method ClearFilters()
      requires Valid()
      modifies this
      ensures Valid() && !HasFilters()
      ensures searchValue == "" && roleFilter == "all" && bannedFilter == "all" && page == 1
      ensures searchField == old(searchField) && pageSize == old(pageSize)
    {
      searchValue := "";
      roleFilter := "all";
      bannedFilter := "all";
      page := 1;
    }

    /** A click on Previous; nothing happens while it is disabled. */
    method Previous()
      requires Valid()
      modifies this
      ensures Valid()
      ensures page == if PreviousDisabled(old(page)) then old(page) else PreviousPage(old(page))
      ensures searchValue == old(searchValue) && searchField == old(searchField)
      ensures roleFilter == old(roleFilter) && bannedFilter == old(bannedFilter) && pageSize == old(pageSize)
    {
      if !PreviousDisabled(page) {
        page := PreviousPage(page);
      }
    }

    /** A click on Next, given the page count; nothing happens while it is disabled. */
    method Next(totalPages: nat)
      requires Valid()
      modifies this
      ensures Valid()
      ensures page == if NextDisabled(old(page), totalPages) then old(page) else NextPage(old(page), totalPages)
      ensures searchValue == old(searchValue) && searchField == old(searchField)
      ensures roleFilter == old(roleFilter) && bannedFilter == old(bannedFilter) && pageSize == old(pageSize)
    {
      if !NextDisabled(page, totalPages) {
        page := NextPage(page, totalPages);
      }
    }
  }

  // ---------------------------------------------------------------------
  // initials

  /** `words.map(n => n[0]).join("")`: an empty word's first character is
      `undefined`, which joins as nothing. */
  function FirstChars(words: seq<string>): (r: string)
    ensures |r| <= |words|
  {
    if |words| == 0 then ""
    else (if words[0] == "" then "" else [words[0][0]]) + FirstChars(words[1..])
  }

  /** The avatar initials of a user name: every word's first character, uppercased. */
  function Initials(name: string): (r: string)
    ensures |r| <= |Strings.Split(name, ' ')|
  {
    Strings.Upper(FirstChars(Strings.Split(name, ' ')))
  }

  /** Empty words, from repeated spaces, contribute nothing. */
  lemma {:induction false} FirstCharsSkipEmpty(a: seq<string>, b: seq<string>)
    ensures FirstChars(a + [""] + b) == FirstChars(a + b)
    decreases |a|
  {
    if |a| == 0 {
      assert a + [""] + b == [""] + b;
      assert ([""] + b)[1..] == b;
      assert a + b == b;
    } else {
      FirstCharsSkipEmpty(a[1..], b);
      assert (a + [""] + b)[1..] == a[1..] + [""] + b;
      assert (a + b)[1..] == a[1..] + b;
    }
  }

  /** Of non-empty words, one initial per word, in order. */
  lemma {:induction false} FirstCharsOfWords(words: seq<string>)
    requires forall i :: 0 <= i < |words| ==> words[i] != ""
    ensures |FirstChars(words)| == |words|
    ensures forall i :: 0 <= i < |words| ==> FirstChars(words)[i] == words[i][0]
    decreases |words|
  {
    if |words| > 0 {
      FirstCharsOfWords(words[1..]);
    }
  }

  /** A name made of non-empty words separated by single spaces has one
      initial per word, none dropped: the initials are not truncated. */
  lemma InitialsOfWords(words: seq<string>)
    requires |words| >= 1
    requires forall i :: 0 <= i < |words| ==> words[i] != ""
    requires forall i, j :: 0 <= i < |words| && 0 <= j < |words[i]| ==> words[i][j] != ' '
    ensures |Initials(Strings.Join(words, " "))| == |words|
    ensures forall i :: 0 <= i < |words| ==> Initials(Strings.Join(words, " "))[i] == Strings.UpperChar(words[i][0])
  {
    Strings.JoinSplit(words, ' ');
    assert [' '] == " ";
    FirstCharsOfWords(words);
  }
}
