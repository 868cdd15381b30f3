/** The dashboard's settings page: its change-password form checks the confirmation first and the
    length second, and has no character-class rule. */
module Settings {
  import opened Common
  import ChangePassword

  const Mismatch: string := "Passwords do not match"
  const TooShort: string := "Password must be at least 6 characters"
  const Updated: string := "Password updated successfully"
  const DefaultFailure: string := "Failed to update password"

  /** The two guards of `handleChangePassword`, in order. */
  function Validate(newPassword: string, confirmPassword: string): Option<string> {
    if newPassword != confirmPassword then Some(Mismatch)
    else if |newPassword| < 6 then Some(TooShort)
    else None
  }

  /** Mismatch wins over length; length is checked only for matching entries; the update is made
      iff both pass. */
  lemma ValidateVerdicts(newPassword: string, confirmPassword: string)
    ensures newPassword != confirmPassword ==> Validate(newPassword, confirmPassword) == Some(Mismatch)
    ensures Validate(newPassword, confirmPassword) == Some(TooShort) <==>
            newPassword == confirmPassword && |newPassword| < 6
    ensures Validate(newPassword, confirmPassword) == None <==> newPassword == confirmPassword && |newPassword| >= 6
  {
    assert Mismatch != TooShort by {
      assert Mismatch[8] != TooShort[8];
    }
  }

  /** Whatever the dialog accepts the page accepts too, not conversely, and a short mismatched
      entry gets different first messages from the two forms. */
  lemma DialogIsStricter(password: string, confirm: string)
    ensures ChangePassword.Validate(password, confirm).None? ==> Validate(password, confirm).None?
    ensures Validate("abcdef", "abcdef").None? && ChangePassword.Validate("abcdef", "abcdef").Some?
    ensures Validate("ab", "cd") == Some(Mismatch) && ChangePassword.Validate("ab", "cd") == Some(ChangePassword.TooShort)
  {
    assert !ChangePassword.HasUpper("abcdef") by {
      forall i | 0 <= i < 6 ensures !('A' <= "abcdef"[i] <= 'Z') {
      }
    }
  }

  /** The settings page's password form; `updateCalls` lists the passwords sent to the backend. */
  class SettingsPage {
    var loading: bool
    var currentPassword: string
    var newPassword: string
    var confirmPassword: string
    var toasts: seq<Notice>
    var updateCalls: seq<string>

    constructor ()
      ensures !loading && currentPassword == "" && newPassword == "" && confirmPassword == ""
      ensures toasts == [] && updateCalls == []
    {
      loading, currentPassword, newPassword, confirmPassword := false, "", "", "";
      toasts, updateCalls := [], [];
    }

    /** `handleChangePassword`; `result` is how the backend answered, if it was asked. */
    method HandleChangePassword(result: Outcome)
      modifies this
      ensures Validate(old(newPassword), old(confirmPassword)).Some? ==>
        toasts == old(toasts) + [Notice(Validate(old(newPassword), old(confirmPassword)).value, ErrorNotice)] &&
        updateCalls == old(updateCalls) && loading == old(loading) &&
        currentPassword == old(currentPassword) && newPassword == old(newPassword) &&
        confirmPassword == old(confirmPassword)
      ensures Validate(old(newPassword), old(confirmPassword)).None? ==>
        updateCalls == old(updateCalls) + [old(newPassword)] && !loading
      ensures Validate(old(newPassword), old(confirmPassword)).None? && result.Done? ==>
        currentPassword == "" && newPassword == "" && confirmPassword == "" &&
        toasts == old(toasts) + [Notice(Updated, SuccessNotice)]
      ensures Validate(old(newPassword), old(confirmPassword)).None? && result.Failed? ==>
        currentPassword == old(currentPassword) && newPassword == old(newPassword) &&
        confirmPassword == old(confirmPassword) &&
        toasts == old(toasts) + [Notice(FailureText(result, DefaultFailure), ErrorNotice)]
    {
      if newPassword != confirmPassword {
        toasts := toasts + [Notice(Mismatch, ErrorNotice)];
        return;
      }
      if |newPassword| < 6 {
        toasts := toasts + [Notice(TooShort, ErrorNotice)];
        return;
      }
      loading := true;
      updateCalls := updateCalls + [newPassword];
      if result.Done? {
        currentPassword := "";
        newPassword := "";
        confirmPassword := "";
        toasts := toasts + [Notice(Updated, SuccessNotice)];
      } else {
        toasts := toasts + [Notice(FailureText(result, DefaultFailure), ErrorNotice)];
      }
      loading := false;
    }
  }
}
