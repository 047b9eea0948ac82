/** The server's request-level rules: mapping a unique-constraint failure
    to 422, the production gate on the API documentation, and the
    single-page-application fallback for unknown paths. */
module Factories {
  import opened Wrappers
  import Strings
  import opened Exception
  import AccessControl

  /** An error reaching the API server's error handler. */
  datatype ServerError = UniqueConstraintViolation | OtherError

  /** The API server's `onError`: a unique-constraint violation becomes
      the 422 response; anything else is left to the framework. */
  function OnApiError(e: ServerError): (r: Option<Response>)
    ensures r.Some? <==> e.UniqueConstraintViolation?
    ensures r.Some? ==> r.value.status == 422 && r.value.body == JsonBody("Unprocessable Entity", 422)
  {
    if e.UniqueConstraintViolation? then Some(ToResponse(NewError(UnprocessableEntity, None))) else None
  }

  predicate IsDocsPath(path: string) {
    path == "/api/openapi" || path == "/api/openapi/json"
  }

  /** The session lookup's result, as far as the gate reads it. */
  datatype DocsSession = DocsSession(role: Option<string>)

  /** The documentation gate of `onBeforeHandle`; `hasDocsRead` is the auth
      library's answer for `docs:read`. `None` lets the request through. */
  function DocsGate(path: string, nodeEnv: string, session: Option<DocsSession>, hasDocsRead: bool): (r: Option<HttpError>)
    ensures !IsDocsPath(path) || nodeEnv != "production" ==> r == None
    ensures IsDocsPath(path) && nodeEnv == "production" ==>
      && (session.None? ==> r == Some(NewError(Unauthorized, Some("You must be logged in to access API documentation"))))
      && (session.Some? && !TruthyString(session.value.role) ==>
            r == Some(NewError(Unauthorized, Some("You must assigned to a related role!"))))
      && (session.Some? && TruthyString(session.value.role) && !hasDocsRead ==>
            r == Some(NewError(Forbidden, Some("You are not allowed to access documentation!"))))
  {
    if IsDocsPath(path) && nodeEnv == "production" then
      if session.None? then Some(NewError(Unauthorized, Some("You must be logged in to access API documentation")))
      else if !TruthyString(session.value.role) then Some(NewError(Unauthorized, Some("You must assigned to a related role!")))
      else if !hasDocsRead then Some(NewError(Forbidden, Some("You are not allowed to access documentation!")))
      else None
    else None
  }

  /** The gate lets a request through exactly when it is not a production
      documentation request, or the caller is signed in with a role and
      may read the documentation; a refusal is a 401 or a 403. */
  lemma DocsGatePasses(path: string, nodeEnv: string, session: Option<DocsSession>, hasDocsRead: bool)
    ensures DocsGate(path, nodeEnv, session, hasDocsRead).None? <==>
      !(IsDocsPath(path) && nodeEnv == "production") || (session.Some? && TruthyString(session.value.role) && hasDocsRead)
    ensures DocsGate(path, nodeEnv, session, hasDocsRead).Some? ==>
      ToResponse(DocsGate(path, nodeEnv, session, hasDocsRead).value).status in {401, 403}
  {
  }

  /** Only the two exact paths are gated: a trailing slash is not. */
  lemma DocsGateExactPaths(nodeEnv: string, hasDocsRead: bool)
    ensures DocsGate("/api/openapi/", nodeEnv, None, hasDocsRead) == None
  {
    assert "/api/openapi/" != "/api/openapi" && "/api/openapi/" != "/api/openapi/json";
  }

  /** With the shared role tables as the library's answer, an admin reads
      the documentation in production and a regular user gets 403. */
  lemma DocsGateByRole(path: string)
    requires IsDocsPath(path)
    ensures var admin := Some("admin");
      DocsGate(path, "production", Some(DocsSession(admin)),
        AccessControl.HasPermission(admin, AccessControl.Docs, AccessControl.Read)) == None
    ensures var regular := Some("regular");
      DocsGate(path, "production", Some(DocsSession(regular)),
        AccessControl.HasPermission(regular, AccessControl.Docs, AccessControl.Read)).value.status == 403
  {
    AccessControl.DocsReaders();
  }

  /** Whether the application's `onError` answers with the page shell. */
  function ServesIndex(code: string, path: string): (b: bool)
    ensures b ==> code == "NOT_FOUND"
    ensures code == "NOT_FOUND" ==> (b <==> !Strings.StartsWith(path, "/api/") && !Strings.StartsWith(path, "/assets"))
  {
    code == "NOT_FOUND" && !Strings.StartsWith(path, "/api/") && !Strings.StartsWith(path, "/assets")
  }

  /** The response under construction (the handler's `set`). */
  class ResponseSet {
    var status: int
    constructor (status: int)
      ensures this.status == status
    {
      this.status := status;
    }
  }

  /** The application's `onError`: an unknown page outside the API and the
      assets gets status 200 and `index.html`; other errors and paths are
      left untouched. */
  method OnAppError(code: string, path: string, response: ResponseSet) returns (file: Option<string>)
    modifies response
    ensures ServesIndex(code, path) ==> file == Some("./public/index.html") && response.status == 200
    ensures !ServesIndex(code, path) ==> file == None && response.status == old(response.status)
  {
    file := None;
    if code == "NOT_FOUND" && !Strings.StartsWith(path, "/api/") && !Strings.StartsWith(path, "/assets") {
      response.status := 200;
      file := Some("./public/index.html");
    }
  }

  /** Which paths fall back: the bare `/api` does (the test needs `/api/`),
      `/assetsx` does not (the test has no slash), a page path does. */
  lemma FallbackPaths()
    ensures ServesIndex("NOT_FOUND", "/api")
    ensures !ServesIndex("NOT_FOUND", "/api/users")
    ensures !ServesIndex("NOT_FOUND", "/assetsx")
    ensures ServesIndex("NOT_FOUND", "/dashboard")
    ensures !ServesIndex("VALIDATION", "/dashboard")
  {
    assert "/api/users"[..5] == "/api/";
    assert "/assetsx"[..7] == "/assets";
    assert "/dashboard"[..5][1] != "/api/"[1];
    assert "/dashboard"[..7][1] != "/assets"[1];
  }
}
