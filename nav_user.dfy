/** The user menu in the sidebar: the user it shows, the avatar
    initials and where logging out leads. */
module NavUser {
  import opened Wrappers
  import Strings
  import UsersTable

  /** The `user` prop; its role is optional. */
  datatype UserProp = UserProp(name: string, email: string, avatar: string, role: Option<string>)

  /** The session user's fields, each possibly missing. */
  datatype SessionUser = SessionUser(name: Option<string>, email: Option<string>, image: Option<string>, role: Option<string>)

  /** `currentUser`: the prop when given; otherwise the session user's
      fields, each replaced by its default when missing or empty. */
  function CurrentUser(user: Option<UserProp>, session: Option<SessionUser>): (u: UserProp)
    ensures user.Some? ==> u == user.value
    ensures user.None? && session.None? ==> u == UserProp("User", "", "", Some("regular"))
    ensures user.None? && session.Some? ==>
      && u.name == OrString(session.value.name, "User")
      && u.email == OrString(session.value.email, "")
      && u.avatar == OrString(session.value.image, "")
      && u.role == Some(OrString(session.value.role, "regular"))
  {
    match user
    case Some(p) => p
    case None =>
      var s := session.GetOr(SessionUser(None, None, None, None));
      UserProp(OrString(s.name, "User"), OrString(s.email, ""), OrString(s.image, ""), Some(OrString(s.role, "regular")))
  }

  /** Without a prop the menu always shows a non-empty name and a role. */
  lemma DefaultsNonEmpty(session: Option<SessionUser>)
    ensures CurrentUser(None, session).name != "" && CurrentUser(None, session).role.Some?
    ensures CurrentUser(None, session).role.value != ""
  {
  }

  /** `getInitials`: the users table's initials cut to two characters;
      initials already that short are shown whole. */
  function GetInitials(name: string): (r: string)
    ensures |r| <= 2
    ensures Strings.StartsWith(UsersTable.Initials(name), r)
    ensures |UsersTable.Initials(name)| >= 2 ==> |r| == 2
    ensures |UsersTable.Initials(name)| < 2 ==> r == UsersTable.Initials(name)
  {
    var all := UsersTable.Initials(name);
    if |all| <= 2 then all else all[..2]
  }

  /** The upper-casing and the cut commute: the shown initials are the
      upper-cased first characters of the first two words. */
  lemma GetInitialsUpperOfCut(name: string)
    ensures
      var firsts := UsersTable.FirstChars(Strings.Split(name, ' '));
      GetInitials(name) == Strings.Upper(if |firsts| <= 2 then firsts else firsts[..2])
  {
    var firsts := UsersTable.FirstChars(Strings.Split(name, ' '));
    if |firsts| > 2 {
      Strings.UpperPrefix(firsts, 2);
    }
  }

  /** A one-word name shows its one upper-cased initial. */
  lemma InitialsOfOneWord(w: string)
    requires w != ""
    requires forall j :: 0 <= j < |w| ==> w[j] != ' '
    ensures GetInitials(w) == [Strings.UpperChar(w[0])]
  {
    assert Strings.Join([w], " ") == w;
    UsersTable.InitialsOfWords([w]);
  }

  /** A name of two or more non-empty words shows the first letters of its
      first two words, whatever follows. */
  lemma InitialsOfLongName(words: seq<string>)
    requires |words| >= 2
    requires forall i :: 0 <= i < |words| ==> words[i] != ""
    requires forall i, j :: 0 <= i < |words| && 0 <= j < |words[i]| ==> words[i][j] != ' '
    ensures GetInitials(Strings.Join(words, " ")) == [Strings.UpperChar(words[0][0]), Strings.UpperChar(words[1][0])]
  {
    UsersTable.InitialsOfWords(words);
  }

  /** Logging out navigates to the login page only once the `signOut`
      call resolves. The client reports an error by resolving with it, not
      by throwing, so an error result navigates as well. */
  function LogoutNavigation(signOutResolves: bool): (to: Option<string>)
    ensures to.Some? <==> signOutResolves
    ensures to.Some? ==> to.value == "/login"
  {
    if signOutResolves then Some("/login") else None
  }
}
