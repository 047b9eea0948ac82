# Orchestrator: a verified model of its core rules

Orchestrator is a monorepo with an Elysia backend, a React Router frontend and a shared contracts package. This project models its rule-bearing code in Dafny and proves properties of that model. There is one module per source file.

**Session revocation (backend).** The auth library's `before` hook publishes revocation events into one shared, null-initialised queue, a `BehaviorSubject`. A long-lived subscriber maps each event to one delete filter over the session table. It runs the delete with up to three retries and linear backoff. When the retries are exhausted, the error is swallowed, and this also ends the stream. Teardown runs a guarded list of steps.
- **Rule modules:** `SessionQueue`, `Revocation`, `Execution`, `AuthHooks`.
- **Data:** the session table is a `seq<Session>`. Storage failures are an input: a sequence saying which attempts fail. Time does not appear; retry delays are returned as a list of milliseconds.

**Other backend rules:**
- the sign-up invitation gate, the storage TTL conversion and the reset-link rewrite (`AuthHooks`);
- the invitation table and its uniqueness constraint (`Invitation`);
- the query-string builder with its mutable buffer (`AxiomQuery`);
- the OpenAPI path helper (`OpenApiPaths`);
- error classes and their responses (`Exception`);
- the docs access gate, the unique-violation mapping and the single-page-app fallback (`Factories`).

**Shared contracts:**
- the role/permission tables and lookups (`AccessControl`);
- the request-schema constraints and defaults (`ContractsAuth`, `Pagination`).

**Frontend rules:**
- the permission and role hooks (`UseAuth`);
- the render decisions of `Can`/`Cannot` and of the two guards (`Can`, `PermissionGuard`, `RoleGuard`; shared views in `Views`);
- the users listing query and the users table: request, pagination arithmetic, page transitions and initials (`UsersApi`, `UsersTable`);
- the API-key expiry parser and create dialog (`ApiKeysRoute`);
- the settings pages (`ApikeysSettings`, `AccountsSettings`, `SecuritySettings`);
- the reset-password form (`ResetPasswordForm`);
- the user menu (`NavUser`), the breadcrumbs (`SiteHeader`) and the base-URL configuration (`Config`).

**Support modules:**
- `Wrappers`: `Option`, `Result` and JavaScript truthiness.
- `Strings`: `join`, one-character `split`, `includes`, `startsWith`, blank test, ASCII `toUpperCase`, and decimal rendering and parsing.
- `Mail`: the mail message record.

**The model follows the code as written.** These behaviours are therefore proved as they are, not corrected:
- An `/revoke-sessions` request is caught by the earlier `includes('revoke-session')` test. It therefore publishes a `revoke-session` event, and the `revoke-sessions` branch of the hook is unreachable.
- `revoke-other-sessions` deletes every session of every user except the current one.
- The invitation `invite` operation sends mail only after the row is flushed. A mail failure leaves the row stored.
- The reset form requires 8 characters, which is stricter than the shared contract's 6.
- In a browser, the separator of the breadcrumbs is never rendered, because the raw split of a pathname such as `/users` has one piece more than there are crumbs.

## Model

| member | source | states |
|---|---|---|
| SessionQueue.EndpointName | apps/backend/src/infrastructures/better-auth/session.ts:7 | each endpoint's wire name begins with `revoke-` |
| SessionQueue.EndpointNames | apps/backend/src/infrastructures/better-auth/session.ts:7 | the three names are distinct, and `revoke-sessions` contains `revoke-session` |
| SessionQueue.Queue.constructor | apps/backend/src/infrastructures/better-auth/session.ts:12-15 | the one shared queue starts holding null and not completed |
| SessionQueue.Queue.Next | apps/backend/src/infrastructures/better-auth/session.ts:2 | `next(v)` overwrites the held value, completed or not |
| SessionQueue.Queue.Complete | apps/backend/src/infrastructures/better-auth/session.ts:2 | completion keeps the held value and stops the subject |
| Revocation.FilterOf | apps/backend/src/infrastructures/better-auth/index.ts:67-93 | revoke-session filters on the body token only when it is a string; revoke-sessions on every id; revoke-other-sessions on "token is not the session token" only when that is truthy |
| Revocation.DeleteWhere | apps/backend/src/infrastructures/better-auth/index.ts:72 | the rows kept are exactly those the filter does not match, and the table never grows; their order is stated by `DeleteWhereOrder` |
| Revocation.DeleteWhereOrder | apps/backend/src/infrastructures/better-auth/index.ts:72 | the delete keeps the order of the rows it keeps: one row survives exactly when the filter does not match it, and deleting from two parts of a table is deleting from each in turn |
| Revocation.DeleteNothing | apps/backend/src/infrastructures/better-auth/index.ts:72 | a filter that matches no row leaves the table unchanged |
| Revocation.ExecuteRevokeSession | apps/backend/src/infrastructures/better-auth/index.ts:68-75 | deletes exactly the rows whose token is the string body token; with a non-string token the table is unchanged |
| Revocation.ExecuteRevokeSessions | apps/backend/src/infrastructures/better-auth/index.ts:77-82 | leaves the session table empty |
| Revocation.DeleteAll | apps/backend/src/infrastructures/better-auth/index.ts:80 | the `id $exists` filter matches every row |
| Revocation.Execute | apps/backend/src/infrastructures/better-auth/index.ts:67-93 | executing an event only removes rows, and an event whose guard fails leaves the table as it is |
| Revocation.ExecuteRevokeOtherSessions | apps/backend/src/infrastructures/better-auth/index.ts:84-93 | with a truthy session token keeps exactly the rows with that token; otherwise nothing changes |
| Revocation.OtherSessionsDeletesOtherUsers | apps/backend/src/infrastructures/better-auth/index.ts:88-90 | another user's session is deleted too: the filter names no user |
| Revocation.ExecuteIdempotent | apps/backend/src/infrastructures/better-auth/index.ts:67-93 | executing the same event twice deletes nothing more |
| Revocation.RevokeByIdDeletesNothing | apps/backend/src/infrastructures/better-auth/index.ts:71-73 | a revoke-session request carrying an id that is no session's token deletes nothing |
| Revocation.RetrySucceeds | apps/backend/src/infrastructures/better-auth/index.ts:100-101 | some execution within the budget of 1 + 3 succeeds |
| Revocation.ExecuteWithRetry | apps/backend/src/infrastructures/better-auth/index.ts:99-107 | 1 to 4 executions; every one before the last failed; success iff some attempt within the budget succeeds; retry n waits n*1000 ms; the table changes only on success |
| Revocation.Step | apps/backend/src/infrastructures/better-auth/index.ts:98-113 | an ended stream ignores the event; a running one ends exactly when the event exhausts its retries; the table changes only by a successful execution |
| Revocation.Run | apps/backend/src/infrastructures/better-auth/index.ts:59-115 | an ended stream never runs again, and the events only ever remove sessions |
| Revocation.RunConcat | apps/backend/src/infrastructures/better-auth/index.ts:60-115 | processing two batches in turn is processing their concatenation |
| Revocation.StoppedAbsorbs | apps/backend/src/infrastructures/better-auth/index.ts:110-113 | once the stream has ended, later events change nothing |
| Revocation.ExhaustionStopsLaterEvents | apps/backend/src/infrastructures/better-auth/index.ts:110-115 | an event that exhausts its retries ends the stream; events after it are not processed |
| Revocation.EndToEndScenarios | apps/backend/src/infrastructures/better-auth/index.ts:67-93 | the three endpoints' effects on a concrete three-row table |
| Revocation.RevocationPipeline.constructor | apps/backend/src/infrastructures/better-auth/index.ts:59-115 | subscribing replays the held value: a held event is processed at once; a completed queue gives an ended stream |
| Revocation.RevocationPipeline.Publish | apps/backend/src/infrastructures/better-auth/index.ts:63 | a null value is stored but never reaches the executor; an event is processed exactly as `Step` says while the stream runs, and its report gives 1 to 4 executions, the n*1000 ms delays, whether it succeeded and the table afterwards |
| Revocation.RevocationPipeline.Cleanup | apps/backend/src/infrastructures/better-auth/index.ts:118-126 | all five steps are attempted in order and none propagates; on a second cleanup steps 0 and 1 fail and are logged; afterwards everything is stopped |
| Execution.FirstFailure | apps/backend/src/helpers/execution.ts:5-12 | the index of the first throwing function, or the length when none throws |
| Execution.FailedIndices | apps/backend/src/helpers/execution.ts:9 | exactly the failing indices among those invoked, in increasing order |
| Execution.SyncTryCatchBulk | apps/backend/src/helpers/execution.ts:1-15 | without break every function runs once in order; with break exactly those up to and including the first failure run; each failure is logged with its index; nothing propagates |
| AuthHooks.SignUpGate | apps/backend/src/infrastructures/better-auth/auth.ts:97-115 | off a sign-up path it passes; a missing email gives FORBIDDEN "Email not provided!"; an uninvited email gives FORBIDDEN "Not invited!"; an invited one passes |
| AuthHooks.SignUpGateIgnoresTable | apps/backend/src/infrastructures/better-auth/auth.ts:97 | off the sign-up path the invitation table is not consulted |
| AuthHooks.RevokeEvents | apps/backend/src/infrastructures/better-auth/auth.ts:117-139 | one event per name the path contains, each carrying the body and the session token: revoke-session comes first iff the path contains `revoke-session`, revoke-other-sessions last iff it contains that name, and a path with neither publishes nothing |
| AuthHooks.SessionsPathContainsSession | apps/backend/src/infrastructures/better-auth/auth.ts:117-124 | every path containing `revoke-sessions` contains `revoke-session` |
| AuthHooks.RevokeSessionsUnreachable | apps/backend/src/infrastructures/better-auth/auth.ts:124-131 | no request ever publishes a revoke-sessions event |
| AuthHooks.RevokeSessionsPathEvents | apps/backend/src/infrastructures/better-auth/auth.ts:117-131 | `/revoke-sessions` publishes a single revoke-session event |
| AuthHooks.RevokeOtherSessionsPathEvents | apps/backend/src/infrastructures/better-auth/auth.ts:132-139 | `/revoke-other-sessions` publishes only its own event |
| AuthHooks.OtherSessionsPathLacksSession | apps/backend/src/infrastructures/better-auth/auth.ts:117 | `/revoke-other-sessions` does not contain `revoke-session` |
| AuthHooks.RevokeSessionsRequestDeletesNothing | apps/backend/src/infrastructures/better-auth/auth.ts:117-123 | a `/revoke-sessions` request without a body token deletes no session |
| AuthHooks.Publications | apps/backend/src/infrastructures/better-auth/auth.ts:119-138 | one publication per event, in order |
| AuthHooks.Before | apps/backend/src/infrastructures/better-auth/auth.ts:96-140 | the result is the sign-up gate's; a rejected request publishes nothing; otherwise the pipeline state is that after processing its events in order; a request with no events leaves pipeline and queue as they were |
| AuthHooks.After | apps/backend/src/infrastructures/better-auth/auth.ts:141-153 | on sign-up a missing email is an internal server error; otherwise the invitation is marked used, and a failing update is swallowed |
| AuthHooks.StorageSet | apps/backend/src/infrastructures/better-auth/auth.ts:83-89 | a truthy ttl is stored as a non-zero expiry of ttl*1000 ms; otherwise no expiry |
| AuthHooks.StorageZeroTtl | apps/backend/src/infrastructures/better-auth/auth.ts:84 | a zero ttl is stored as having no expiry |
| AuthHooks.ResetLink | apps/backend/src/infrastructures/better-auth/auth.ts:57-58 | the origin and the rest of the URL are kept; the new pathname is `/api` followed by the old one |
| AuthHooks.ResetLinkString | apps/backend/src/infrastructures/better-auth/auth.ts:58-64 | the rewritten link spells the original with `/api` inserted after the origin |
| AuthHooks.ResetMail | apps/backend/src/infrastructures/better-auth/auth.ts:62-66 | the mail goes to the user, with the reset subject |
| AuthHooks.ResetMailCarries | apps/backend/src/infrastructures/better-auth/auth.ts:64 | its text contains the rewritten link and the token |
| OpenApiPaths.Tagged | apps/backend/src/infrastructures/better-auth/index.ts:212-215 | every operation keeps its content, and its tags become `['Better Auth']` |
| OpenApiPaths.TaggedIdempotent | apps/backend/src/infrastructures/better-auth/index.ts:214 | tagging twice is tagging once |
| OpenApiPaths.PrefixInjective | apps/backend/src/infrastructures/better-auth/index.ts:209 | prefixing keeps distinct paths distinct |
| OpenApiPaths.OpenApiBetterAuth.constructor | apps/backend/src/infrastructures/better-auth/index.ts:199-201 | the schema is generated once, at creation |
| OpenApiPaths.OpenApiBetterAuth.GetPaths | apps/backend/src/infrastructures/better-auth/index.ts:204-219 | every path k appears as prefix+k (default `/api/auth`) with tagged operations, and no other key does; the memoised schema is tagged in place, not regenerated |
| AxiomQuery.WhereClause | apps/backend/src/helpers/axiom-query.ts:11-14 | the clause is `where f c v`, joined by single spaces |
| AxiomQuery.QueryClause | apps/backend/src/helpers/axiom-query.ts:21-24 | the arguments joined by single spaces |
| AxiomQuery.FunctionCall | apps/backend/src/helpers/axiom-query.ts:26-35 | `n(a)`, or `n()` for an absent or empty argument; with the square-bracket style `n(['a'])`, even for an absent argument |
| AxiomQuery.FinalQueryForm | apps/backend/src/helpers/axiom-query.ts:37-41 | the final query is `['dataset'] |`, followed by the buffer joined by spaces |
| AxiomQuery.FinalQueryNotIdempotent | apps/backend/src/helpers/axiom-query.ts:38-39 | a second call prefixes the dataset and the pipe again, so its result differs |
| AxiomQuery.AxiomQueryHelper.constructor | apps/backend/src/helpers/axiom-query.ts:2-4 | a fresh builder has an empty buffer |
| AxiomQuery.AxiomQueryHelper.Pipe | apps/backend/src/helpers/axiom-query.ts:6-9 | appends exactly `|` and returns the same builder |
| AxiomQuery.AxiomQueryHelper.Where | apps/backend/src/helpers/axiom-query.ts:11-14 | appends one where clause and returns the same builder |
| AxiomQuery.AxiomQueryHelper.Raw | apps/backend/src/helpers/axiom-query.ts:16-19 | appends the query verbatim and returns the same builder |
| AxiomQuery.AxiomQueryHelper.Query | apps/backend/src/helpers/axiom-query.ts:21-24 | appends the joined arguments and returns the same builder |
| AxiomQuery.AxiomQueryHelper.Function | apps/backend/src/helpers/axiom-query.ts:26-35 | appends one function call and returns the same builder |
| AxiomQuery.AxiomQueryHelper.GetFinalQuery | apps/backend/src/helpers/axiom-query.ts:37-41 | the buffer gains the dataset and a pipe in front; the result is the new buffer joined by spaces |
| AxiomQuery.CreateAxiomQuery | apps/backend/src/helpers/axiom-query.ts:44-46 | a fresh builder over the dataset with an empty buffer |
| Invitation.FindByInvitee | apps/backend/src/modules/invitation/invitation.service.ts:37 | finds a row of the invitee exactly when one exists |
| Invitation.RemoveId | apps/backend/src/modules/invitation/invitation.service.ts:43 | the rows kept are exactly those with another id |
| Invitation.MarkInvited | apps/backend/src/modules/invitation/invitation.service.ts:53-57 | every row of the invitee gets the timestamp; other rows are unchanged |
| Invitation.InvitationMail | apps/backend/src/modules/invitation/invitation.service.ts:27-31 | the invitation mail goes to the invitee |
| Invitation.EligibleIffInvited | apps/backend/src/modules/invitation/invitation.service.ts:35-39 | eligible iff some row names the invitee, whoever invited them and whether used |
| Invitation.MarkInvitedKeepsEligibility | apps/backend/src/modules/invitation/invitation.service.ts:37-57 | marking an invitation used changes no one's eligibility |
| Invitation.MarkInvitedKeepsUnique | apps/backend/src/entities/invitation.entity.ts:4 | marking keeps the id and (invitee, by) constraints |
| Invitation.RemoveIdKeepsUnique | apps/backend/src/entities/invitation.entity.ts:4 | revoking keeps the constraints |
| Invitation.RemoveMissingId | apps/backend/src/modules/invitation/invitation.service.ts:41-48 | revoking an unknown id leaves the table unchanged |
| Invitation.InvitationTable.Invite | apps/backend/src/modules/invitation/invitation.service.ts:20-33 | a clash with an existing id or (invitee, by) pair fails before any mail; otherwise exactly one row is added and the mail is sent, and a mail failure still leaves the row |
| Invitation.InvitationTable.IsEligible | apps/backend/src/modules/invitation/invitation.service.ts:35-39 | true iff some row names the invitee |
| Invitation.InvitationTable.Revoke | apps/backend/src/modules/invitation/invitation.service.ts:41-48 | removes only the row with that id and answers "ok" |
| Invitation.InvitationTable.Invited | apps/backend/src/modules/invitation/invitation.service.ts:50-62 | stamps every row of the invitee; a failed transaction changes nothing |
| Factories.OnApiError | apps/backend/src/main/factories.ts:48-57 | a unique-constraint violation becomes 422 with the Unprocessable Entity body; other errors are left alone |
| Factories.DocsGate | apps/backend/src/main/factories.ts:58-93 | only the two exact docs paths in production are gated; no session, then no role, give 401; lacking docs:read gives 403 |
| Factories.DocsGatePasses | apps/backend/src/main/factories.ts:61-88 | passes iff off the docs paths, not in production, or a session with a role and docs:read; a refusal is 401 or 403 |
| Factories.DocsGateExactPaths | apps/backend/src/main/factories.ts:61 | a path merely resembling a docs path is not gated |
| Factories.DocsGateByRole | apps/backend/src/main/factories.ts:73-88 | with the role tables, an admin passes and a regular user is refused |
| Factories.ServesIndex | apps/backend/src/main/factories.ts:130-134 | only a NOT_FOUND error can serve the page, and it does exactly when the path starts with neither `/api/` nor `/assets` |
| Factories.OnAppError | apps/backend/src/main/factories.ts:129-137 | a NOT_FOUND outside `/api/` and `/assets` sets status 200 and serves index.html; anything else is untouched |
| Factories.FallbackPaths | apps/backend/src/main/factories.ts:130-134 | `/api` and `/dashboard` fall back; `/api/users` and `/assetsx` do not; other codes never do |
| Exception.NewError | apps/backend/src/infrastructures/exception/index.ts:1-6 | each class has its status; a supplied message replaces the class default |
| Exception.ToResponse | apps/backend/src/infrastructures/exception/index.ts:8-18 | the body is `{error: message, code: status}`, and the HTTP status is the error's |
| Exception.StatusTable | apps/backend/src/infrastructures/exception/index.ts:21-66 | statuses are 403, 401, 404 and 422, and the response status identifies the class |
| Exception.DefaultResponse | apps/backend/src/infrastructures/exception/index.ts:4-18 | without a message the response carries the class default |
| AccessControl.HasPermission | packages/contracts/src/access-control.ts:59-73 | false for an absent or empty role and for an unknown role; otherwise true iff the permission is listed for the resource |
| AccessControl.HasAnyPermission | packages/contracts/src/access-control.ts:76-82 | some listed permission is held |
| AccessControl.HasAllPermissions | packages/contracts/src/access-control.ts:85-91 | every listed permission is held |
| AccessControl.EmptyPermissionLists | packages/contracts/src/access-control.ts:76-91 | any-of an empty list is false; all-of an empty list is true, even with no role |
| AccessControl.AllImpliesAny | packages/contracts/src/access-control.ts:76-91 | for a non-empty list all-of implies any-of |
| AccessControl.RoleTableFacts | packages/contracts/src/access-control.ts:38-50 | admin holds nothing on test; regular holds only test:read; no role holds revoke, share or reserve |
| AccessControl.DocsReaders | packages/contracts/src/access-control.ts:38-50 | admin may read the docs, regular may not |
| ContractsAuth.ParseUserRole | packages/contracts/src/auth.ts:4 | a role is exactly `admin` or `regular` |
| ContractsAuth.RoleRoundTrip | packages/contracts/src/auth.ts:4 | parsing a role's name gives the role back |
| ContractsAuth.SignInIssues | packages/contracts/src/auth.ts:82-87 | valid iff the email check passes and the password has at least 6 characters |
| ContractsAuth.SignUpIssues | packages/contracts/src/auth.ts:89-96 | valid iff the name is non-empty, the email check passes and the password has at least 6 characters |
| ContractsAuth.ChangePasswordIssues | packages/contracts/src/auth.ts:122-126 | valid iff both passwords have at least 6 characters; each failing field is named |
| ContractsAuth.ResetPasswordIssues | packages/contracts/src/auth.ts:146-149 | valid iff the new password has at least 6 characters |
| ContractsAuth.CreateApikeyIssues | packages/contracts/src/auth.ts:207-214 | valid iff the name is non-empty |
| ContractsAuth.ApikeyDefaults | packages/contracts/src/auth.ts:61-65 | each missing field takes its own default (enabled, rate limited, 86400000 ms, 10 requests, count 0) whatever the others are; supplied fields are kept |
| ContractsAuth.ApikeyAllDefaults | packages/contracts/src/auth.ts:61-65 | missing fields give enabled, rate limited, 86400000 ms, 10 requests, count 0 |
| ContractsAuth.ApikeyDefaultsStable | packages/contracts/src/auth.ts:61-65 | filling in defaults on a complete record changes nothing |
| ContractsAuth.SignInRedirectIssues | packages/contracts/src/auth.ts:100 | valid iff `redirect` is present and false |
| ContractsAuth.ParseChangeEmailMessage | packages/contracts/src/auth.ts:142 | valid iff absent, null, or one of the two texts; a parsed message renders back to its text |
| ContractsAuth.MessageRoundTrip | packages/contracts/src/auth.ts:142 | each text parses to its own message |
| Pagination.ParsePagination | packages/contracts/src/pagination.ts:3-7 | missing offset, limit and total become 0, 100 and 0; supplied values are kept |
| Pagination.ParseEmbedded | packages/contracts/src/pagination.ts:9-15 | a missing object becomes `{limit: 100, offset: 0, total: 0}` |
| Pagination.MissingObjectIsEmptyObject | packages/contracts/src/pagination.ts:3-15 | the object default and the field defaults agree |
| Pagination.ParseStable | packages/contracts/src/pagination.ts:4-6 | re-parsing a parsed object gives it back |
| UseAuth.Role | apps/frontend/app/lib/hooks/use-auth.ts:14-15 | no session means no role |
| UseAuth.IsAuthenticated | apps/frontend/app/lib/hooks/use-auth.ts:53 | signed in exactly when there is a session; signed out there is no role |
| UseAuth.CheckPermission | apps/frontend/app/lib/hooks/use-auth.ts:17-19 | true only for a signed-in user with a non-empty role; for a signed-in user it is the contract lookup on the session user's role |
| UseAuth.CheckAnyPermission | apps/frontend/app/lib/hooks/use-auth.ts:21-23 | some listed permission passes the check |
| UseAuth.CheckAllPermissions | apps/frontend/app/lib/hooks/use-auth.ts:25-27 | every listed permission passes the check |
| UseAuth.HasRole | apps/frontend/app/lib/hooks/use-auth.ts:29-37 | false without a role; membership for a list; equality for one name |
| UseAuth.IsAdmin | apps/frontend/app/lib/hooks/use-auth.ts:39-41 | only a signed-in user whose role is `admin` |
| UseAuth.IsRegular | apps/frontend/app/lib/hooks/use-auth.ts:43-45 | only a signed-in user whose role is `regular` |
| UseAuth.RoleTests | apps/frontend/app/lib/hooks/use-auth.ts:39-45 | never both admin and regular; each agrees with `hasRole` |
| Can.Granted | apps/frontend/app/components/can.tsx:38-48 | one permission uses the single check whatever `requireAll` says; several use all-of when `requireAll` is set and any-of otherwise (default off) |
| Can.EmptyListGranted | apps/frontend/app/components/can.tsx:42-48 | an empty list grants iff `requireAll` |
| Can.CanView | apps/frontend/app/components/can.tsx:25-55 | unauthenticated or denied gives the fallback (default nothing); granted gives the children |
| Can.CannotView | apps/frontend/app/components/can.tsx:72-101 | the children or nothing; signed out, the children; signed in, the children exactly when not granted |
| Can.CannotIsCanNegated | apps/frontend/app/components/can.tsx:96-100 | for an authenticated user Cannot shows the children exactly when Can would not |
| PermissionGuard.GuardView | apps/frontend/app/components/permission-guard.tsx:35-80 | pending gives loading; unauthenticated goes to `/login`; granted shows the children; denied shows a truthy fallback or goes to `redirectTo` (default `/dashboard`) |
| PermissionGuard.GuardAgreesWithCan | apps/frontend/app/components/permission-guard.tsx:60-79 | the guard decides as Can does, except that a denial without a fallback redirects |
| RoleGuard.GuardView | apps/frontend/app/components/role-guard.tsx:24-55 | pending gives loading; unauthenticated goes to `/login`; without the role a truthy fallback or a redirect (default `/dashboard`); otherwise the children |
| RoleGuard.NoRoleTurnedAway | apps/frontend/app/components/role-guard.tsx:47-52 | a signed-in user without a role never sees the children |
| UsersApi.ListUsersQuery | apps/frontend/app/lib/api/users.ts:40-54 | a truthy role filters on role; otherwise a defined `banned` filters on "true"/"false"; otherwise no filter; the other parameters pass through |
| UsersApi.FilterFieldAndValueTogether | apps/frontend/app/lib/api/users.ts:49-50 | field and value are present together, and a ban value is "true" or "false" |
| UsersApi.RoleTakesPrecedence | apps/frontend/app/lib/api/users.ts:49-50 | with a role given, `banned` is ignored |
| UsersTable.Offset | apps/frontend/app/components/users-table.tsx:231 | page 1 starts at row 0, and each page starts one page size after the one before |
| UsersTable.RequestParams | apps/frontend/app/components/users-table.tsx:229-236 | offset is (page-1)*pageSize; search field only with a search; `all` means no filter; banned is true only for "true" |
| UsersTable.RoleFilterShadowsBanFilter | apps/frontend/app/components/users-table.tsx:234-235 | with a role chosen, the status selection does not change the query |
| UsersTable.TotalPages | apps/frontend/app/components/users-table.tsx:239 | the ceiling of total/pageSize, or 0 without data |
| UsersTable.PageLabel | apps/frontend/app/components/users-table.tsx:457 | the page count shown, or 1 when it is 0 |
| UsersTable.RangeStart | apps/frontend/app/components/users-table.tsx:422 | 0 for an empty page, otherwise one past the offset the request sent |
| UsersTable.RangeEnd | apps/frontend/app/components/users-table.tsx:422 | the smaller of page * pageSize and the total |
| UsersTable.RangeWithinTotal | apps/frontend/app/components/users-table.tsx:422 | on a page within the count, 1 <= start <= end <= total and the range spans at most one page |
| UsersTable.PreviousPage | apps/frontend/app/components/users-table.tsx:451 | max(1, page-1) |
| UsersTable.NextPage | apps/frontend/app/components/users-table.tsx:462 | min(totalPages, page+1): the next page while there is one, otherwise the page count |
| UsersTable.NextKeepsPageValid | apps/frontend/app/components/users-table.tsx:462-463 | an enabled Next keeps the page between 1 and the count |
| UsersTable.UsersTableState.constructor | apps/frontend/app/components/users-table.tsx:222-227 | no search by name, all roles and statuses, page 1 of 10 rows |
| UsersTable.UsersTableState.SetSearch | apps/frontend/app/components/users-table.tsx:288-291 | search text changes and the page resets to 1 |
| UsersTable.UsersTableState.SetSearchField | apps/frontend/app/components/users-table.tsx:276 | the field changes and the page does not |
| UsersTable.UsersTableState.SetRoleFilter | apps/frontend/app/components/users-table.tsx:296-299 | the role filter changes and the page resets to 1 |
| UsersTable.UsersTableState.SetBannedFilter | apps/frontend/app/components/users-table.tsx:310-313 | the status filter changes and the page resets to 1 |
| UsersTable.UsersTableState.SetPageSize | apps/frontend/app/components/users-table.tsx:430-433 | the page size changes and the page resets to 1 |
| UsersTable.UsersTableState.ClearFilters | apps/frontend/app/components/users-table.tsx:263-269 | no filter remains, page 1; search field and page size stay |
| UsersTable.UsersTableState.Previous | apps/frontend/app/components/users-table.tsx:451-452 | disabled on page 1, otherwise the previous page |
| UsersTable.UsersTableState.Next | apps/frontend/app/components/users-table.tsx:462-463 | disabled on the last page or with no pages, otherwise the next page |
| UsersTable.FirstChars | apps/frontend/app/components/users-table.tsx:341-342 | at most one character per word |
| UsersTable.FirstCharsSkipEmpty | apps/frontend/app/components/users-table.tsx:341-342 | an empty word contributes nothing |
| UsersTable.FirstCharsOfWords | apps/frontend/app/components/users-table.tsx:341-342 | non-empty words give one first character each, in order |
| UsersTable.Initials | apps/frontend/app/components/users-table.tsx:339-343 | at most one initial per space-separated piece of the name |
| UsersTable.InitialsOfWords | apps/frontend/app/components/users-table.tsx:339-343 | a name of single-spaced words has one uppercased initial per word, none dropped |
| ApiKeysRoute.ParseExpiresIn | apps/frontend/app/routes/api-keys.tsx:105-116 | defined iff the input is digits then one of d/m/y in either case; the value is the amount times 86400, 2592000 or 31536000 |
| ApiKeysRoute.ParseRendered | apps/frontend/app/routes/api-keys.tsx:107-115 | a rendered amount with a unit parses to that many units in seconds |
| ApiKeysRoute.UnitCaseIgnored | apps/frontend/app/routes/api-keys.tsx:107-115 | upper- and lower-case units parse alike |
| ApiKeysRoute.LeadingZeroHarmless | apps/frontend/app/routes/api-keys.tsx:107-115 | a leading zero does not change the result |
| ApiKeysRoute.StrictlyIncreasing | apps/frontend/app/routes/api-keys.tsx:115 | for a fixed unit a larger amount gives a strictly larger value |
| ApiKeysRoute.RequestExpiry | apps/frontend/app/routes/api-keys.tsx:121-124 | the expiry is attached only when the parse is defined and non-zero |
| ApiKeysRoute.ZeroAmountNoExpiry | apps/frontend/app/routes/api-keys.tsx:122 | an all-zero amount such as "0d" attaches no expiry |
| ApiKeysRoute.CreateApiKeyDialog.constructor | apps/frontend/app/routes/api-keys.tsx:96-101 | closed, empty name and expiry, no key |
| ApiKeysRoute.CreateApiKeyDialog.EditName | apps/frontend/app/routes/api-keys.tsx:196 | typing sets the name only |
| ApiKeysRoute.CreateApiKeyDialog.EditExpiresIn | apps/frontend/app/routes/api-keys.tsx:205 | typing sets the expiry text only |
| ApiKeysRoute.CreateApiKeyDialog.HandleSubmit | apps/frontend/app/routes/api-keys.tsx:118-129 | sends the name with the truthy parsed expiry; on success shows the key and clears both inputs; a rejection changes nothing |
| ApiKeysRoute.CreateApiKeyDialog.HandleClose | apps/frontend/app/routes/api-keys.tsx:131-134 | closes and forgets the key |
| ApikeysSettings.BlankNamesRefused | apps/frontend/app/components/settings/apikeys-settings.tsx:23 | an empty name or one of spaces, tabs and newlines only is refused |
| ApikeysSettings.NameAccepted | apps/frontend/app/components/settings/apikeys-settings.tsx:23 | a name is accepted exactly when some character is not whitespace, so never the empty name |
| ApikeysSettings.MaskedKey | apps/frontend/app/components/settings/apikeys-settings.tsx:145 | start + `...****` when start is non-empty, else `****...****` |
| ApikeysSettings.MaskHidesKey | apps/frontend/app/components/settings/apikeys-settings.tsx:145 | the listing ends in the mask and shows nothing but the start before it |
| ApikeysSettings.RateLimitDisplay | apps/frontend/app/components/settings/apikeys-settings.tsx:183-187 | shown iff rate limited; shows `remaining || rateLimitMax` over the max |
| ApikeysSettings.ExhaustedShowsMax | apps/frontend/app/components/settings/apikeys-settings.tsx:185 | zero remaining displays the maximum |
| ApikeysSettings.ApiKeysSettingsState.constructor | apps/frontend/app/components/settings/apikeys-settings.tsx:13-15 | not creating, empty name, no key |
| ApikeysSettings.ApiKeysSettingsState.HandleCreateKey | apps/frontend/app/components/settings/apikeys-settings.tsx:21-36 | a blank name makes no call; otherwise the name is sent, and only a result with a key stores it and clears the name; a rejection is swallowed |
| ApikeysSettings.ApiKeysSettingsState.Done | apps/frontend/app/components/settings/apikeys-settings.tsx:100-103 | forgets the key and closes the dialog |
| AccountsSettings.PasswordAccount | apps/frontend/app/components/settings/accounts-settings.tsx:56 | the first credential account: every account before it is social; none when there is no credential account or no accounts |
| AccountsSettings.FirstCredential | apps/frontend/app/components/settings/accounts-settings.tsx:56 | a credential account at some position with only social accounts before it, or none when no account is a credential one |
| AccountsSettings.SocialAccounts | apps/frontend/app/components/settings/accounts-settings.tsx:57 | exactly the non-credential accounts, or none when accounts are undefined |
| AccountsSettings.OfKindOrder | apps/frontend/app/components/settings/accounts-settings.tsx:56-57 | selecting one kind keeps the order: one account is kept exactly when of that kind, and two parts give what each gives, in turn |
| AccountsSettings.SocialAccountsInOrder | apps/frontend/app/components/settings/accounts-settings.tsx:57 | the social accounts are the non-credential accounts in their original order |
| AccountsSettings.Partition | apps/frontend/app/components/settings/accounts-settings.tsx:56-57 | social plus credential accounts are all the accounts; the password account is the first credential one, so later ones are dropped |
| AccountsSettings.ProviderName | apps/frontend/app/components/settings/accounts-settings.tsx:103 | the table's name for a known provider, else the id itself |
| AccountsSettings.ConnectableProviders | apps/frontend/app/components/settings/accounts-settings.tsx:147-150 | exactly the known providers no social account uses |
| AccountsSettings.UnconnectedOrder | apps/frontend/app/components/settings/accounts-settings.tsx:147-150 | leaving out connected providers keeps table order: a one-entry table offers its provider iff unconnected, and two parts offer what each offers, in turn |
| AccountsSettings.ConnectableInTableOrder | apps/frontend/app/components/settings/accounts-settings.tsx:147-150 | the buttons are the unconnected providers in the order Google, GitHub, Facebook, Twitter, Discord, Microsoft |
| AccountsSettings.AllOfferedWhenNoneConnected | apps/frontend/app/components/settings/accounts-settings.tsx:147-150 | with no social account every provider is offered, in table order |
| SecuritySettings.CheckNewPassword | apps/frontend/app/components/settings/security-settings.tsx:28-36 | a mismatch is reported first, then a new password under 6 characters |
| SecuritySettings.FormMatchesContract | apps/frontend/app/components/settings/security-settings.tsx:33 | the form's length rule is the contract's rule for the new password |
| SecuritySettings.RevokeFlag | apps/frontend/app/components/settings/security-settings.tsx:44 | an unticked box is sent as undefined |
| SecuritySettings.PasswordForm.constructor | apps/frontend/app/components/settings/security-settings.tsx:14-18 | empty fields, unticked, idle |
| SecuritySettings.PasswordForm.HandleChangePassword | apps/frontend/app/components/settings/security-settings.tsx:25-58 | a failed check sends nothing and changes nothing; otherwise the request is sent; a resolving call clears fields and box; the form is idle afterwards either way |
| ResetPasswordForm.CheckSubmit | apps/frontend/app/components/reset-password-form.tsx:51-64 | mismatch, then fewer than 8 characters, then a missing token |
| ResetPasswordForm.StricterThanContract | apps/frontend/app/components/reset-password-form.tsx:56 | what the form accepts the contract accepts; 6 or 7 characters pass the contract but not the form |
| ResetPasswordForm.Renders | apps/frontend/app/components/reset-password-form.tsx:88-90 | nothing is rendered without a token |
| ResetPasswordForm.ResetForm.constructor | apps/frontend/app/components/reset-password-form.tsx:23-26 | empty fields, idle, no token |
| ResetPasswordForm.ResetForm.ReadLink | apps/frontend/app/components/reset-password-form.tsx:29-46 | an INVALID_TOKEN error goes to `/forgot-password` before the token is looked at; so does a missing token; otherwise the token is kept |
| ResetPasswordForm.ResetForm.Submit | apps/frontend/app/components/reset-password-form.tsx:48-86 | a failed check sends nothing; otherwise the reset is requested, only success goes to `/login`, and the form is idle afterwards |
| NavUser.CurrentUser | apps/frontend/app/components/nav-user.tsx:43-48 | the prop when given; otherwise the session fields with defaults `User`, empty, empty, `regular` |
| NavUser.DefaultsNonEmpty | apps/frontend/app/components/nav-user.tsx:43-48 | without a prop the name and role shown are never empty |
| NavUser.GetInitials | apps/frontend/app/components/nav-user.tsx:61-68 | the first two of the full initials; initials shorter than two are shown whole |
| NavUser.GetInitialsUpperOfCut | apps/frontend/app/components/nav-user.tsx:61-68 | upper-casing and then cutting to two equals cutting the first characters to two and then upper-casing |
| NavUser.InitialsOfOneWord | apps/frontend/app/components/nav-user.tsx:61-68 | a one-word name shows its single upper-cased initial |
| NavUser.InitialsOfLongName | apps/frontend/app/components/nav-user.tsx:61-68 | a name of two or more words shows the first letters of its first two words |
| NavUser.LogoutNavigation | apps/frontend/app/components/nav-user.tsx:50-59 | goes to `/login` exactly when the `signOut` call resolves |
| SiteHeader.NonBlank | apps/frontend/app/components/site-header.tsx:36 | exactly the non-blank pieces are kept |
| SiteHeader.NonBlankOrder | apps/frontend/app/components/site-header.tsx:36 | the kept pieces stay in order: one piece is kept iff not blank, and two runs of pieces give what each gives, in turn |
| SiteHeader.Segments | apps/frontend/app/components/site-header.tsx:34-36 | exactly the non-blank pieces of the pathname split on "/"; none contains a slash; no more than the raw pieces |
| SiteHeader.SegmentsOfPath | apps/frontend/app/components/site-header.tsx:34-36 | the pathname `/w1/w2/…` of non-blank, slash-free words has exactly those words as segments, in order |
| SiteHeader.Crumbs | apps/frontend/app/components/site-header.tsx:34-47 | one crumb per segment, each linking to "/" + its own segment with its formatted text; crumb i has a separator exactly when the raw split has i + 1 pieces |
| SiteHeader.NoSeparatorForRootedPath | apps/frontend/app/components/site-header.tsx:45-47 | for a pathname starting with "/" there are fewer crumbs than raw pieces, so no separator is shown |
| Config.ApiBaseUrl | apps/frontend/app/lib/config.ts:2-15 | localhost in a browser gives `http://localhost:3000`; another host gives the page origin; on the server, a truthy API_BASE_URL or the same default |
| Config.MakeConfig | apps/frontend/app/lib/config.ts:17-21 | the auth URL is base + `/api/auth` and the endpoint is base + `/api` |
| Config.ServerBaseNonEmpty | apps/frontend/app/lib/config.ts:14 | the server-side base URL is never empty |

## Left out

- Concurrency and time: rxjs scheduling, the `mergeMap` overlap between events, the `timer` delays and `takeUntil` cancellation are not modelled. Events are processed one at a time, in publication order. Delays are returned as numbers.
- The `default:` branch of the revocation switch: the three-constructor `Endpoint` type makes it unrepresentable, since the queue's type admits only the three names.
- ORM internals: transactions, `fork()`, flush ordering and query translation are not modelled. Tables are in-memory sequences, and a failing transaction is an input flag.
- Auth-library internals: sessions, hashing, `getSession`, `userHasPermission` and `createAccessControl` are not modelled. Their results are inputs. access-controll.ts, auth.config.ts and the frontend auth client are not part of this model.
- Environment parsing: NODE_ENV and FRONTEND_URL are plain inputs.
- Email format: this check is a predicate parameter. `coerce` conversions are not modelled, because inputs are already numbers.
- String lengths: zod's `min` and JavaScript's `.length` count UTF-16 code units, while the model counts characters. They differ only outside the Basic Multilingual Plane.
- `toUpperCase`: modelled on ASCII letters only.
- Numbers:
  - JavaScript number overflow, NaN and floating point are not modelled. `parseInt`, `Math.ceil` and `ttl * 1000` use unbounded integers.
  - Query arguments of the query builder are integers.
- UsersTable.TotalPages: requires a positive page size, since the page-size selector offers only 5, 10, 20 and 50.
- Rendering: JSX, toasts, clipboard, console logging, luxon relative dates and `pascalCase` are not modelled. The crumb formatter is a parameter.
- The create dialog's `onOpenChange`: it always reopens the dialog, and this is not modelled because it is a rendering callback.
- Network and I/O: nodemailer, axios and the react-query hooks are not modelled. Mail failures are swallowed, so the reset mail is a value.
- Prototype-key lookups: a provider id such as `constructor` in the provider table is not modelled.
- Object shape: setting `tags` on non-object entries of a path item is not modelled; path items are always maps of operations.
- URL encoding: `new URL(...).toString()` is approximated by concatenating origin, pathname and the rest.
- Request bodies: an undefined `ctx.body`, and an email field that is not a string, are not modelled; the body is a record with an optional email.
- Session revocation from the sessions settings page: this is flow code outside the core. Its effect, a revoke-session request carrying a session id as its token, is covered by `Revocation.RevokeByIdDeletesNothing`.
