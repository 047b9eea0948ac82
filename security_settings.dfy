/** The change-password form of the security settings: its validation
    order, the request it sends and how it resets itself. */
module SecuritySettings {
  import opened Wrappers
  import ContractsAuth

  /** The first check a change-password submission fails, if any. */
  datatype PasswordCheck = Mismatch | TooShort | Passed

  const MinLength: nat := 6

  /** A mismatch with the confirmation is reported before the length. */
  function CheckNewPassword(newPassword: string, confirmPassword: string): (r: PasswordCheck)
    ensures r == Mismatch <==> newPassword != confirmPassword
    ensures r == TooShort <==> newPassword == confirmPassword && |newPassword| < MinLength
    ensures r == Passed <==> newPassword == confirmPassword && |newPassword| >= MinLength
  {
    if newPassword != confirmPassword then Mismatch
    else if |newPassword| < MinLength then TooShort
    else Passed
  }

  /** The form's length rule is the shared contract's rule for the new
      password; the current password is not checked by the form. */
  lemma FormMatchesContract(newPassword: string, currentPassword: string)
    ensures CheckNewPassword(newPassword, newPassword) == Passed
      <==> !("newPassword" in ContractsAuth.ChangePasswordIssues(newPassword, currentPassword))
  {
  }

  /** The request sent to the auth client. */
  datatype ChangePasswordRequest = ChangePasswordRequest(
    currentPassword: string, newPassword: string, revokeOtherSessions: Option<bool>)

  /** `revokeOtherSessions || undefined`: an unticked box sends nothing. */
  function RevokeFlag(revokeOtherSessions: bool): (r: Option<bool>)
    ensures r.Some? <==> revokeOtherSessions
    ensures r.Some? ==> r.value
  {
    if revokeOtherSessions then Some(true) else None
  }

  class PasswordForm {
    var currentPassword: string
    var newPassword: string
    var confirmPassword: string
    var revokeOtherSessions: bool
    var isChangingPassword: bool

    constructor ()
      ensures currentPassword == "" && newPassword == "" && confirmPassword == ""
      ensures !revokeOtherSessions && !isChangingPassword
    {
      currentPassword, newPassword, confirmPassword := "", "", "";
      revokeOtherSessions, isChangingPassword := false, false;
    }

    /** `handleChangePassword`. A failed check sends nothing and changes
        nothing. Otherwise the request is sent; `resolves` says whether
        the client call resolves. The client reports an error by resolving
        with it rather than throwing, so an error result also clears the
        form. Resolving clears the three fields and the
        box; either way the form is no longer busy afterwards. */
    method HandleChangePassword(resolves: bool) returns (check: PasswordCheck, request: Option<ChangePasswordRequest>)
      modifies this
      ensures check == CheckNewPassword(old(newPassword), old(confirmPassword))
      ensures check != Passed ==>
        && request == None
        && currentPassword == old(currentPassword) && newPassword == old(newPassword)
        && confirmPassword == old(confirmPassword) && revokeOtherSessions == old(revokeOtherSessions)
        && isChangingPassword == old(isChangingPassword)
      ensures check == Passed ==>
        && request == Some(ChangePasswordRequest(old(currentPassword), old(newPassword), RevokeFlag(old(revokeOtherSessions))))
        && !isChangingPassword
      ensures check == Passed && resolves ==>
        currentPassword == "" && newPassword == "" && confirmPassword == "" && !revokeOtherSessions
      ensures check == Passed && !resolves ==>
        && currentPassword == old(currentPassword) && newPassword == old(newPassword)
        && confirmPassword == old(confirmPassword) && revokeOtherSessions == old(revokeOtherSessions)
    {
      check := CheckNewPassword(newPassword, confirmPassword);
      if check != Passed {
        return check, None;
      }
      isChangingPassword := true;
      request := Some(ChangePasswordRequest(currentPassword, newPassword, RevokeFlag(revokeOtherSessions)));
      if resolves {
        currentPassword := "";
        newPassword := "";
        confirmPassword := "";
        revokeOtherSessions := false;
      }
      isChangingPassword := false;
    }
  }
}
