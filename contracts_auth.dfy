/** The request and record schemas shared by the frontend and the backend:
    their length constraints, enumerations and defaults. A schema is
    modelled by the list of fields whose check fails, in field order; the
    e-mail format check is a parameter. */
module ContractsAuth {
  import opened Wrappers

  // ---------------------------------------------------------------------
  // user roles

  datatype UserRole = Admin | Regular

  function RoleName(r: UserRole): string {
    match r
    case Admin => "admin"
    case Regular => "regular"
  }

  /** The role enumeration accepts exactly its two names. */
  function ParseUserRole(s: string): (r: Option<UserRole>)
    ensures r.Some? <==> s == "admin" || s == "regular"
    ensures r.Some? ==> RoleName(r.value) == s
  {
    if s == "admin" then Some(Admin)
    else if s == "regular" then Some(Regular)
    else None
  }

  /** Parsing a role's name gives the role back. */
  lemma RoleRoundTrip(r: UserRole)
    ensures ParseUserRole(RoleName(r)) == Some(r)
  {
  }

  // ---------------------------------------------------------------------
  // request schemas

  /** The field name when its check fails, nothing otherwise. */
  function Check(field: string, ok: bool): seq<string> {
    if ok then [] else [field]
  }

  const MinPasswordLength: nat := 6

  /** Sign in: an e-mail and a password of at least six characters. */
  function SignInIssues(email: string, password: string, isEmail: string -> bool): (issues: seq<string>)
    ensures issues == [] <==> isEmail(email) && |password| >= MinPasswordLength
    ensures ("password" in issues) <==> |password| < MinPasswordLength
  {
    Check("email", isEmail(email)) + Check("password", |password| >= MinPasswordLength)
  }

  /** Sign up: a non-empty name, an e-mail and a password of at least six characters. */
  function SignUpIssues(name: string, email: string, password: string, isEmail: string -> bool): (issues: seq<string>)
    ensures issues == [] <==> |name| >= 1 && isEmail(email) && |password| >= MinPasswordLength
    ensures ("name" in issues) <==> name == ""
    ensures ("password" in issues) <==> |password| < MinPasswordLength
  {
    Check("name", |name| >= 1) + Check("email", isEmail(email)) + Check("password", |password| >= MinPasswordLength)
  }

  /** Change password: both the new and the current password have at least six characters. */
  function ChangePasswordIssues(newPassword: string, currentPassword: string): (issues: seq<string>)
    ensures issues == [] <==> |newPassword| >= MinPasswordLength && |currentPassword| >= MinPasswordLength
    ensures ("newPassword" in issues) <==> |newPassword| < MinPasswordLength
    ensures ("currentPassword" in issues) <==> |currentPassword| < MinPasswordLength
  {
    Check("newPassword", |newPassword| >= MinPasswordLength) + Check("currentPassword", |currentPassword| >= MinPasswordLength)
  }

  /** Reset password: a new password of at least six characters. */
  function ResetPasswordIssues(newPassword: string): (issues: seq<string>)
    ensures issues == [] <==> |newPassword| >= MinPasswordLength
  {
    Check("newPassword", |newPassword| >= MinPasswordLength)
  }

  /** Create API key: a non-empty name. */
  function CreateApikeyIssues(name: string): (issues: seq<string>)
    ensures issues == [] <==> name != ""
  {
    Check("name", |name| >= 1)
  }

  // ---------------------------------------------------------------------
  // API key record defaults

  datatype ApikeySettings = ApikeySettings(
    enabled: bool, rateLimitEnabled: bool, rateLimitTimeWindow: int, rateLimitMax: int, requestCount: int)

  /** Missing fields take their defaults; supplied ones are kept. */
  function ApikeyDefaults(enabled: Option<bool>, rateLimitEnabled: Option<bool>, rateLimitTimeWindow: Option<int>,
                          rateLimitMax: Option<int>, requestCount: Option<int>): (s: ApikeySettings)
    ensures enabled.Some? ==> s.enabled == enabled.value
    ensures rateLimitEnabled.Some? ==> s.rateLimitEnabled == rateLimitEnabled.value
    ensures rateLimitTimeWindow.Some? ==> s.rateLimitTimeWindow == rateLimitTimeWindow.value
    ensures rateLimitMax.Some? ==> s.rateLimitMax == rateLimitMax.value
    ensures requestCount.Some? ==> s.requestCount == requestCount.value
    ensures enabled.None? ==> s.enabled
    ensures rateLimitEnabled.None? ==> s.rateLimitEnabled
    ensures rateLimitTimeWindow.None? ==> s.rateLimitTimeWindow == 86400000
    ensures rateLimitMax.None? ==> s.rateLimitMax == 10
    ensures requestCount.None? ==> s.requestCount == 0
  {
    ApikeySettings(enabled.GetOr(true), rateLimitEnabled.GetOr(true), rateLimitTimeWindow.GetOr(86400000),
      rateLimitMax.GetOr(10), requestCount.GetOr(0))
  }

  /** A record with none of the fields: enabled, rate limited to ten
      requests per day (86400000 ms), no requests counted yet. */
  lemma ApikeyAllDefaults()
    ensures ApikeyDefaults(None, None, None, None, None) == ApikeySettings(true, true, 86400000, 10, 0)
  {
  }

  /** Filling in defaults on an already complete record changes nothing. */
  lemma ApikeyDefaultsStable(s: ApikeySettings)
    ensures ApikeyDefaults(Some(s.enabled), Some(s.rateLimitEnabled), Some(s.rateLimitTimeWindow),
                           Some(s.rateLimitMax), Some(s.requestCount)) == s
  {
  }

  // ---------------------------------------------------------------------
  // response schemas

  /** A sign-in response's `redirect` must be present and literally false. */
  function SignInRedirectIssues(redirect: Option<bool>): (issues: seq<string>)
    ensures issues == [] <==> redirect == Some(false)
  {
    Check("redirect", redirect == Some(false))
  }

  datatype ChangeEmailMessage = EmailUpdated | VerificationEmailSent

  function MessageText(m: ChangeEmailMessage): string {
    match m
    case EmailUpdated => "Email updated"
    case VerificationEmailSent => "Verification email sent"
  }

  /** The change-email response's `message`: absent (`None`), `null`
      (`Some(None)`) or one of the two texts. */
  function ParseChangeEmailMessage(m: Option<Option<string>>): (r: Result<Option<ChangeEmailMessage>, string>)
    ensures r.Success? <==> m.None? || m.value.None? || m.value.value == "Email updated" || m.value.value == "Verification email sent"
    ensures r.Success? && r.value.Some? ==> m == Some(Some(MessageText(r.value.value)))
  {
    if m.None? || m.value.None? then Success(None)
    else if m.value.value == "Email updated" then Success(Some(EmailUpdated))
    else if m.value.value == "Verification email sent" then Success(Some(VerificationEmailSent))
    else Failure("message")
  }

  /** Each text parses to its own message. */
  lemma MessageRoundTrip(m: ChangeEmailMessage)
    ensures ParseChangeEmailMessage(Some(Some(MessageText(m)))) == Success(Some(m))
  {
  }
}
