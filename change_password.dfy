/** The desktop app's change-password dialog: a three-step validation, then the backend call. */
module ChangePassword {
  import opened Common

  const MinLength: nat := 6

  const TooShort: string := "Password must be at least " + NatToString(MinLength) + " characters"
  const WeakChars: string := "Use upper, lower, and a number"
  const Mismatch: string := "Passwords do not match"
  const DefaultFailure: string := "Could not update password"

  /** `/[A-Z]/.test(s)`, `/[a-z]/.test(s)`, `/[0-9]/.test(s)`: ASCII classes only. */
  predicate HasUpper(s: string) {
    exists i :: 0 <= i < |s| && 'A' <= s[i] <= 'Z'
  }

  predicate HasLower(s: string) {
    exists i :: 0 <= i < |s| && 'a' <= s[i] <= 'z'
  }

  predicate HasDigit(s: string) {
    exists i :: 0 <= i < |s| && '0' <= s[i] <= '9'
  }

  predicate MixedClasses(s: string) {
    HasUpper(s) && HasLower(s) && HasDigit(s)
  }

  /** `validate`: the first failing check's message, or none. */
  function Validate(password: string, confirm: string): Option<string> {
    if |password| < MinLength then Some(TooShort)
    else if !MixedClasses(password) then Some(WeakChars)
    else if password != confirm then Some(Mismatch)
    else None
  }

  lemma ShortFailsFirst(password: string, confirm: string)
    requires |password| < MinLength
    ensures Validate(password, confirm) == Some(TooShort)
  {
  }

  lemma WeakFailsSecond(password: string, confirm: string)
    requires |password| >= MinLength && !MixedClasses(password)
    ensures Validate(password, confirm) == Some(WeakChars)
  {
  }

  /** The checks are independent messages: mismatch is reported only when the password itself
      passes, and the password is accepted iff all three checks pass. */
  lemma ValidateVerdicts(password: string, confirm: string)
    ensures Validate(password, confirm) == Some(Mismatch) <==>
            |password| >= MinLength && MixedClasses(password) && password != confirm
    ensures Validate(password, confirm) == None <==>
            |password| >= MinLength && MixedClasses(password) && password == confirm
  {
    assert TooShort != Mismatch by {
      assert TooShort[8] != Mismatch[8];
    }
    assert WeakChars != Mismatch by {
      assert WeakChars[0] != Mismatch[0];
    }
  }

  /** "Abc123" with itself is accepted; "abc123" lacks a capital. */
  lemma ValidateExamples()
    ensures Validate("Abc123", "Abc123") == None
    ensures Validate("abc123", "abc123") == Some(WeakChars)
    ensures Validate("Abc123", "Abc124") == Some(Mismatch)
  {
    assert "Abc123"[0] == 'A' && "Abc123"[1] == 'b' && "Abc123"[3] == '1';
    assert !HasUpper("abc123") by {
      forall i | 0 <= i < 6 ensures !('A' <= "abc123"[i] <= 'Z') {
      }
    }
  }

  /** The dialog. `changeCalls` lists the passwords sent to the backend; `successCalls` counts
      calls of the optional `onSuccess` callback. */
  class Modal {
    var password: string
    var confirm: string
    var isSubmitting: bool
    var error: Option<string>
    var changeCalls: seq<string>
    var successCalls: nat
    const hasOnSuccess: bool

    constructor (onSuccess: bool)
      ensures password == "" && confirm == "" && !isSubmitting && error.None?
      ensures changeCalls == [] && successCalls == 0 && hasOnSuccess == onSuccess
    {
      password, confirm, isSubmitting, error := "", "", false, None;
      changeCalls, successCalls, hasOnSuccess := [], 0, onSuccess;
    }

    method SetPassword(value: string)
      modifies this
      ensures password == value
      ensures confirm == old(confirm) && isSubmitting == old(isSubmitting) && error == old(error)
      ensures changeCalls == old(changeCalls) && successCalls == old(successCalls)
    {
      password := value;
    }

    method SetConfirm(value: string)
      modifies this
      ensures confirm == value
      ensures password == old(password) && isSubmitting == old(isSubmitting) && error == old(error)
      ensures changeCalls == old(changeCalls) && successCalls == old(successCalls)
    {
      confirm := value;
    }

    /** `handleSubmit`; `result` is how the backend answered, if it was asked. */
    method HandleSubmit(result: Outcome)
      modifies this
      ensures Validate(old(password), old(confirm)).Some? ==>
        error == Validate(old(password), old(confirm)) && changeCalls == old(changeCalls) &&
        password == old(password) && confirm == old(confirm) && isSubmitting == old(isSubmitting) &&
        successCalls == old(successCalls)
      ensures Validate(old(password), old(confirm)).None? ==>
        changeCalls == old(changeCalls) + [old(password)] && !isSubmitting
      ensures Validate(old(password), old(confirm)).None? && result.Done? ==>
        password == "" && confirm == "" && error.None? &&
        successCalls == old(successCalls) + (if hasOnSuccess then 1 else 0)
      ensures Validate(old(password), old(confirm)).None? && result.Failed? ==>
        error == Some(FailureText(result, DefaultFailure)) && password == old(password) && confirm == old(confirm) &&
        successCalls == old(successCalls)
    {
      var validationError := Validate(password, confirm);
      if validationError.Some? {
        error := validationError;
        return;
      }
      error := None;
      isSubmitting := true;
      changeCalls := changeCalls + [password];
      if result.Done? {
        isSubmitting := false;
        password := "";
        confirm := "";
        if hasOnSuccess {
          successCalls := successCalls + 1;
        }
      } else {
        isSubmitting := false;
        error := Some(FailureText(result, DefaultFailure));
      }
    }
  }
}
