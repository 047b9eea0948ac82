/** The auth library's configuration hooks: the sign-up gate and the
    revocation dispatch of the `before` hook, the `after` hook that marks an
    invitation used, the secondary-storage expiry conversion and the
    password-reset link. */
module AuthHooks {
  import opened Wrappers
  import Strings
  import opened SessionQueue
  import Revocation
  import Invitation
  import Mail

  /** What a hook sees of a request: its path, its body and the token of
      the caller's current session, if any. */
  datatype HookContext = HookContext(path: string, body: Body, sessionToken: Option<string>)

  /** What a hook throws: the auth library's `APIError(status, {message,
      code})`, or the web framework's internal server error. */
  datatype HookError = ApiError(status: string, message: string, code: string) | InternalServerError(message: string)

  predicate IsSignUpPath(path: string) {
    Strings.Includes(path, "sign-up/email")
  }

  // ---------------------------------------------------------------------
  // before: sign-up gate

  /** The sign-up gate against the invitation table; `None` lets the
      request through. */
  function SignUpGate(path: string, email: Option<string>, rows: seq<Invitation.Invitation>): (r: Option<HookError>)
    ensures !IsSignUpPath(path) ==> r == None
    ensures IsSignUpPath(path) && !TruthyString(email) ==>
      r == Some(ApiError("FORBIDDEN", "Email not provided!", "FORBIDDEN"))
    ensures IsSignUpPath(path) && TruthyString(email) ==>
      && (r.None? <==> exists row :: row in rows && row.invitee == email.value)
      && (r.Some? ==> r == Some(ApiError("FORBIDDEN", "Not invited!", "FORBIDDEN")))
  {
    if IsSignUpPath(path) then
      if TruthyString(email) then
        if Invitation.FindByInvitee(rows, email.value).Some? then None
        else Some(ApiError("FORBIDDEN", "Not invited!", "FORBIDDEN"))
      else Some(ApiError("FORBIDDEN", "Email not provided!", "FORBIDDEN"))
    else None
  }

  /** Off the sign-up path the invitation table is not consulted: the
      decision is the same whatever the table holds. */
  lemma SignUpGateIgnoresTable(path: string, email: Option<string>, a: seq<Invitation.Invitation>, b: seq<Invitation.Invitation>)
    requires !IsSignUpPath(path)
    ensures SignUpGate(path, email, a) == SignUpGate(path, email, b) == None
  {
  }

  // ---------------------------------------------------------------------
  // before: revocation dispatch

  function EventFor(endpoint: Endpoint, ctx: HookContext): Event {
    Event(endpoint, ctx.body, ctx.sessionToken)
  }

  /** The events the `before` hook publishes for a request, in order: one of
      the first two `includes` tests (the second in an `else`), then the
      independent third. */
  function RevokeEvents(ctx: HookContext): (evs: seq<Event>)
    ensures |evs| <= 2
    ensures forall i :: 0 <= i < |evs| ==> evs[i].body == ctx.body && evs[i].sessionToken == ctx.sessionToken
    ensures Strings.Includes(ctx.path, "revoke-session") <==> |evs| >= 1 && evs[0].endpoint == RevokeSession
    ensures Strings.Includes(ctx.path, "revoke-other-sessions") <==>
      |evs| >= 1 && evs[|evs| - 1].endpoint == RevokeOtherSessions
    ensures |evs| == (if Strings.Includes(ctx.path, "revoke-session") then 1 else 0)
                   + (if Strings.Includes(ctx.path, "revoke-other-sessions") then 1 else 0)
  {
    SessionsPathContainsSession(ctx.path);
    var first :=
      if Strings.Includes(ctx.path, "revoke-session") then [EventFor(RevokeSession, ctx)]
      else if Strings.Includes(ctx.path, "revoke-sessions") then [EventFor(RevokeSessions, ctx)]
      else [];
    var second :=
      if Strings.Includes(ctx.path, "revoke-other-sessions") then [EventFor(RevokeOtherSessions, ctx)]
      else [];
    first + second
  }

  /** Every path containing `revoke-sessions` contains `revoke-session`. */
  lemma SessionsPathContainsSession(path: string)
    ensures Strings.Includes(path, "revoke-sessions") ==> Strings.Includes(path, "revoke-session")
  {
    if Strings.Includes(path, "revoke-sessions") {
      EndpointNames();
      Strings.IncludesTransitive(path, "revoke-sessions", "revoke-session");
    }
  }

  /** Hence the `else if` branch never runs and no request publishes the
      all-sessions endpoint. */
  lemma RevokeSessionsUnreachable(ctx: HookContext)
    ensures forall i :: 0 <= i < |RevokeEvents(ctx)| ==> RevokeEvents(ctx)[i].endpoint != RevokeSessions
  {
    SessionsPathContainsSession(ctx.path);
  }

  /** A request to `/revoke-sessions` publishes a single `revoke-session` event. */
  lemma RevokeSessionsPathEvents(body: Body, sessionToken: Option<string>)
    ensures RevokeEvents(HookContext("/revoke-sessions", body, sessionToken))
      == [Event(RevokeSession, body, sessionToken)]
  {
    var path := "/revoke-sessions";
    assert Strings.OccursAt(path, "revoke-session", 1);
    assert !Strings.Includes(path, "revoke-other-sessions");
  }

  /** A request to `/revoke-other-sessions` publishes only its own event. */
  lemma RevokeOtherSessionsPathEvents(body: Body, sessionToken: Option<string>)
    ensures RevokeEvents(HookContext("/revoke-other-sessions", body, sessionToken))
      == [Event(RevokeOtherSessions, body, sessionToken)]
  {
    var path := "/revoke-other-sessions";
    assert Strings.OccursAt(path, "revoke-other-sessions", 1);
    OtherSessionsPathLacksSession(path);
    SessionsPathContainsSession(path);
  }

  /** `/revoke-other-sessions` does not contain `revoke-session`: the only
      early enough `r` is at position 1, and there the two part at the
      eighth character. */
  lemma OtherSessionsPathLacksSession(path: string)
    requires path == "/revoke-other-sessions"
    ensures !Strings.Includes(path, "revoke-session")
  {
    var name := "revoke-session";
    assert |path| == 22 && |name| == 14;
    forall i | Strings.OccursAt(path, name, i) ensures false {
      assert 0 <= i <= 8;
      Strings.OccursAtChar(path, name, i, 0);
      if i == 1 {
        Strings.OccursAtChar(path, name, i, 7);
      } else {
        OtherSessionsPathLetters(path, i);
      }
    }
  }

  lemma OtherSessionsPathLetters(path: string, i: int)
    requires path == "/revoke-other-sessions"
    requires 0 <= i <= 8 && i != 1
    ensures path[i] != 'r'
  {
  }

  /** So a "sign out of all devices" request, whose body has no token,
      deletes no session at all. */
  lemma RevokeSessionsRequestDeletesNothing(store: seq<Revocation.Session>, body: Body, sessionToken: Option<string>)
    requires !body.token.Str?
    ensures
      var evs := RevokeEvents(HookContext("/revoke-sessions", body, sessionToken));
      |evs| == 1 && Revocation.Execute(evs[0], store) == store
  {
    RevokeSessionsPathEvents(body, sessionToken);
  }

  /** The publications of `evs`, the `i`-th meeting the storage outcomes `fails[i]`. */
  function Publications(evs: seq<Event>, fails: seq<seq<bool>>): (pubs: seq<Revocation.Publication>)
    ensures |pubs| == |evs|
    ensures forall i :: 0 <= i < |evs| ==> pubs[i].event == evs[i]
  {
    seq(|evs|, i requires 0 <= i < |evs| => Revocation.Publication(evs[i], FailsAt(fails, i)))
  }

  function FailsAt(fails: seq<seq<bool>>, i: nat): seq<bool> {
    if i < |fails| then fails[i] else []
  }

  /** The `before` hook. A rejected sign-up throws before anything is
      published; otherwise each published event goes through the shared
      queue to the revocation subscriber. */
  method Before(pipeline: Revocation.RevocationPipeline, table: Invitation.InvitationTable, ctx: HookContext, fails: seq<seq<bool>>)
    returns (r: Option<HookError>)
    requires pipeline.Valid()
    modifies pipeline, pipeline.queue
    ensures pipeline.Valid()
    ensures r == SignUpGate(ctx.path, ctx.body.email, table.rows)
    ensures r.Some? ==> pipeline.State() == old(pipeline.State()) && pipeline.queue.value == old(pipeline.queue.value)
    ensures r.None? ==>
      pipeline.State() == Revocation.Run(old(pipeline.State()), Publications(RevokeEvents(ctx), fails))
    ensures r.None? && |RevokeEvents(ctx)| > 0 ==>
      pipeline.queue.value == Some(RevokeEvents(ctx)[|RevokeEvents(ctx)| - 1])
    ensures r.None? && RevokeEvents(ctx) == [] ==>
      pipeline.State() == old(pipeline.State()) && pipeline.queue.value == old(pipeline.queue.value)
  {
    if IsSignUpPath(ctx.path) {
      if TruthyString(ctx.body.email) {
        var invited := table.IsEligible(ctx.body.email.value);
        if !invited {
          return Some(ApiError("FORBIDDEN", "Not invited!", "FORBIDDEN"));
        }
      } else {
        return Some(ApiError("FORBIDDEN", "Email not provided!", "FORBIDDEN"));
      }
    }
    r := None;
    ghost var s0 := pipeline.State();
    var published: seq<Event> := [];
    if Strings.Includes(ctx.path, "revoke-session") {
      var e := EventFor(RevokeSession, ctx);
      var _ := pipeline.Publish(Some(e), FailsAt(fails, 0));
      published := [e];
    } else if Strings.Includes(ctx.path, "revoke-sessions") {
      var e := EventFor(RevokeSessions, ctx);
      var _ := pipeline.Publish(Some(e), FailsAt(fails, 0));
      published := [e];
    }
    assert pipeline.State() == Revocation.Run(s0, Publications(published, fails)) by {
      if |published| == 1 {
        assert Publications(published, fails)[..0] == [];
      }
    }
    if Strings.Includes(ctx.path, "revoke-other-sessions") {
      var e := EventFor(RevokeOtherSessions, ctx);
      var _ := pipeline.Publish(Some(e), FailsAt(fails, |published|));
      var pubs := Publications(published + [e], fails);
      assert pubs[..|pubs| - 1] == Publications(published, fails);
      published := published + [e];
    }
    assert published == RevokeEvents(ctx);
  }

  // ---------------------------------------------------------------------
  // after: marking the invitation used

  /** The `after` hook. On the sign-up path a missing email is a server
      error; otherwise the invitation is marked, and a failure of that
      update is logged and swallowed. */
  method After(table: Invitation.InvitationTable, path: string, email: Option<string>, now: string, updateFails: bool)
    returns (r: Option<HookError>)
    requires table.Valid()
    modifies table
    ensures table.Valid()
    ensures !IsSignUpPath(path) ==> r == None && table.rows == old(table.rows)
    ensures IsSignUpPath(path) && !TruthyString(email) ==>
      r == Some(InternalServerError("Email error on server side!")) && table.rows == old(table.rows)
    ensures IsSignUpPath(path) && TruthyString(email) ==>
      && r == None
      && table.rows == if updateFails then old(table.rows) else Invitation.MarkInvited(old(table.rows), email.value, now)
  {
    r := None;
    if IsSignUpPath(path) {
      if !TruthyString(email) {
        return Some(InternalServerError("Email error on server side!"));
      }
      var _ := table.Invited(email.value, now, updateFails);
    }
  }

  // ---------------------------------------------------------------------
  // secondary storage

  /** The call the storage adapter makes on the key-value store; the
      library gives `ttl` in seconds, the store takes milliseconds. */
  datatype StoreCall = StoreCall(key: string, value: string, expiryMs: Option<int>)

  /** `secondaryStorage.set(key, value, ttl)`. */
  function StorageSet(key: string, value: string, ttl: Option<int>): (call: StoreCall)
    ensures call.key == key && call.value == value
    ensures TruthyNumber(ttl) ==> call.expiryMs.Some? && call.expiryMs.value / 1000 == ttl.value
    ensures TruthyNumber(ttl) ==> call.expiryMs.value % 1000 == 0 && call.expiryMs.value != 0
    ensures !TruthyNumber(ttl) ==> call.expiryMs == None
  {
    if TruthyNumber(ttl) then StoreCall(key, value, Some(ttl.value * 1000))
    else StoreCall(key, value, None)
  }

  /** A zero ttl is falsy: the entry is stored without expiry, exactly as
      when no ttl is given. */
  lemma StorageZeroTtl(key: string, value: string)
    ensures StorageSet(key, value, Some(0)) == StorageSet(key, value, None)
  {
  }

  // ---------------------------------------------------------------------
  // password reset

  /** A URL as far as the rewrite touches it: everything before the path,
      the path, and everything after it. */
  datatype Url = Url(origin: string, pathname: string, rest: string)

  function UrlString(u: Url): string {
    u.origin + u.pathname + u.rest
  }

  /** The reset link: the library's URL with `/api` put before its path. */
  function ResetLink(u: Url): (r: Url)
    ensures r.origin == u.origin && r.rest == u.rest
    ensures Strings.StartsWith(r.pathname, "/api") && r.pathname[4..] == u.pathname
  {
    u.(pathname := "/api" + u.pathname)
  }

  /** The rewritten link spells the original one with `/api` inserted after the origin. */
  lemma ResetLinkString(u: Url)
    ensures UrlString(ResetLink(u)) == u.origin + "/api" + u.pathname + u.rest
  {
  }

  /** The reset mail sent to the user. */
  function ResetMail(to: string, url: Url, token: string): (m: Mail.Message)
    ensures m.to == to && m.subject == "Reset Password for Orchestrator Account"
  {
    Mail.Message(to, "Reset Password for Orchestrator Account",
      "Click here to reset " + UrlString(ResetLink(url)) + " or use this token " + token)
  }

  /** The mail carries both the rewritten link and the token. */
  lemma {:induction false} ResetMailCarries(to: string, url: Url, token: string)
    ensures Strings.Includes(ResetMail(to, url, token).text, UrlString(ResetLink(url)))
    ensures Strings.Includes(ResetMail(to, url, token).text, token)
  {
    var a, link, b := "Click here to reset ", UrlString(ResetLink(url)), " or use this token ";
    var text := ResetMail(to, url, token).text;
    assert text == a + link + b + token;
    assert text[|a|..|a| + |link|] == link;
    assert Strings.OccursAt(text, link, |a|);
    assert text[|a + link + b|..] == token;
    assert Strings.OccursAt(text, token, |a + link + b|);
  }
}
