/** The reset-password form: how it reads the token from the link, the
    order of its submit checks, and where it navigates. */
module ResetPasswordForm {
  import opened Wrappers
  import ContractsAuth

  const ForgotPasswordPath: string := "/forgot-password"
  const LoginPath: string := "/login"
  const InvalidToken: string := "INVALID_TOKEN"
  const MinLength: nat := 8

  /** The first check a submission fails, if any. */
  datatype SubmitCheck = Mismatch | TooShort | NoToken | Passed

  /** Mismatch first, then a password shorter than 8, then a missing token. */
  function CheckSubmit(password: string, confirmPassword: string, token: Option<string>): (r: SubmitCheck)
    ensures r == Mismatch <==> password != confirmPassword
    ensures r == TooShort <==> password == confirmPassword && |password| < MinLength
    ensures r == NoToken <==> password == confirmPassword && |password| >= MinLength && !TruthyString(token)
    ensures r == Passed <==> password == confirmPassword && |password| >= MinLength && TruthyString(token)
  {
    if password != confirmPassword then Mismatch
    else if |password| < MinLength then TooShort
    else if !TruthyString(token) then NoToken
    else Passed
  }

  /** The form is stricter than the shared reset contract: whatever it
      lets through the contract accepts, and a six- or seven-character
      password the contract accepts the form refuses. */
  lemma StricterThanContract(password: string, token: Option<string>)
    ensures CheckSubmit(password, password, token) == Passed ==> ContractsAuth.ResetPasswordIssues(password) == []
    ensures 6 <= |password| < 8 ==>
      ContractsAuth.ResetPasswordIssues(password) == [] && CheckSubmit(password, password, token) == TooShort
  {
  }

  /** The form renders only once it holds a token. */
  function Renders(token: Option<string>): (b: bool)
    ensures b <==> token.Some? && token.value != ""
  {
    TruthyString(token)
  }

  datatype ResetRequest = ResetRequest(newPassword: string, token: string)

  /** What the reset call yields: an error result, a success, or a rejection. */
  datatype ResetOutcome = ErrorResult | Succeeded | Rejected

  class ResetForm {
    var password: string
    var confirmPassword: string
    var isLoading: bool
    var token: Option<string>

    constructor ()
      ensures password == "" && confirmPassword == "" && !isLoading && token == None
      ensures !Renders(token)
    {
      password, confirmPassword, isLoading, token := "", "", false, None;
    }

    /** The effect on the link's query: an `error=INVALID_TOKEN` sends the
        user back before the token is looked at; so does a missing or empty
        token; otherwise the token is kept. */
    method ReadLink(tokenParam: Option<string>, errorParam: Option<string>) returns (navigate: Option<string>)
      modifies this
      ensures errorParam == Some(InvalidToken) ==> navigate == Some(ForgotPasswordPath) && token == old(token)
      ensures errorParam != Some(InvalidToken) && !TruthyString(tokenParam) ==>
        navigate == Some(ForgotPasswordPath) && token == old(token)
      ensures errorParam != Some(InvalidToken) && TruthyString(tokenParam) ==>
        navigate == None && token == tokenParam && Renders(token)
      ensures password == old(password) && confirmPassword == old(confirmPassword) && isLoading == old(isLoading)
    {
      if errorParam == Some(InvalidToken) {
        return Some(ForgotPasswordPath);
      }
      if !TruthyString(tokenParam) {
        return Some(ForgotPasswordPath);
      }
      token := tokenParam;
      navigate := None;
    }

    /** `handleSubmit`. A failed check sends nothing; otherwise the reset
        is requested and only a success navigates to the login page. The
        form is not busy afterwards. */
    method Submit(outcome: ResetOutcome) returns (check: SubmitCheck, request: Option<ResetRequest>, navigate: Option<string>)
      modifies this
      ensures check == CheckSubmit(old(password), old(confirmPassword), old(token))
      ensures check != Passed ==> request == None && navigate == None && isLoading == old(isLoading)
      ensures check == Passed ==> request == Some(ResetRequest(old(password), old(token).value)) && !isLoading
      ensures navigate == Some(LoginPath) <==> check == Passed && outcome == Succeeded
      ensures navigate.Some? ==> navigate == Some(LoginPath)
      ensures password == old(password) && confirmPassword == old(confirmPassword) && token == old(token)
    {
      check := CheckSubmit(password, confirmPassword, token);
      if check != Passed {
        return check, None, None;
      }
      isLoading := true;
      request := Some(ResetRequest(password, token.value));
      navigate := if outcome == Succeeded then Some(LoginPath) else None;
      isLoading := false;
    }
  }
}
