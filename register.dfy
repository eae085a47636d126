/** The sign-up form's checks, run in order before any account is created. */
module Register {
  import opened Wrappers
  import opened JsText

  const NameMissing: string := "Please enter your name."
  const EmailMissing: string := "Please enter an email."
  const PasswordShort: string := "Password should be at least 6 characters."
  const PasswordMismatch: string := "Passwords do not match."

  /** The early-return chain of `handleRegister`: the message of the first
      check that fails, or `None` when all pass. */
  function Validate(name: string, email: string, password: string, passwordConfirm: string): (r: Option<string>)
    ensures IsBlank(name) ==> r == Some(NameMissing)
    ensures !IsBlank(name) && email == "" ==> r == Some(EmailMissing)
    ensures !IsBlank(name) && email != "" && |password| < 6 ==> r == Some(PasswordShort)
    ensures (&& !IsBlank(name) && email != "" && |password| >= 6
             && password != passwordConfirm) ==> r == Some(PasswordMismatch)
    ensures r.None? <==> !IsBlank(name) && email != "" && |password| >= 6 && password == passwordConfirm
  {
    TrimEmptyIffBlank(name);
    if Trim(name) == "" then Some(NameMissing)
    else if email == "" then Some(EmailMissing)
    else if |password| < 6 then Some(PasswordShort)
    else if password != passwordConfirm then Some(PasswordMismatch)
    else None
  }

  /** The four messages are different, so the one shown names the failed check. */
  lemma MessagesDistinct()
    ensures NameMissing != EmailMissing && NameMissing != PasswordShort && NameMissing != PasswordMismatch
    ensures EmailMissing != PasswordShort && EmailMissing != PasswordMismatch
    ensures PasswordShort != PasswordMismatch
  {
    assert NameMissing[13] != EmailMissing[13];
    assert NameMissing[1] != PasswordShort[1] && NameMissing[1] != PasswordMismatch[1];
    assert EmailMissing[1] != PasswordShort[1] && EmailMissing[1] != PasswordMismatch[1];
    assert PasswordShort[9] != PasswordMismatch[9];
  }

  /** The sign-up form state the handler reads and writes. */
  class RegisterForm {
    var name: string
    var email: string
    var password: string
    var passwordConfirm: string
    var error: Option<string>
    var loading: bool

    constructor ()
      ensures name == "" && email == "" && password == "" && passwordConfirm == ""
      ensures error.None? && !loading
    {
      name := "";
      email := "";
      password := "";
      passwordConfirm := "";
      error := None;
      loading := false;
    }

    /** `handleRegister`. `createFailure` is what the account creation reports:
        `None` when it succeeds, else the message of the error it throws. The
        result says whether account creation was attempted. */
    method HandleRegister(createFailure: Option<string>) returns (attempted: bool)
      modifies this`error, this`loading
      ensures attempted <==> Validate(name, email, password, passwordConfirm).None?
      ensures !attempted ==> error == Validate(name, email, password, passwordConfirm) && loading == old(loading)
      ensures attempted && createFailure.None? ==> error.None? && !loading
      ensures attempted && createFailure.Some? ==>
        error == Some(if createFailure.value == "" then "Registration failed" else createFailure.value) && !loading
    {
      error := None;
      var invalid := Validate(name, email, password, passwordConfirm);
      if invalid.Some? {
        error := invalid;
        return false;
      }
      loading := true;
      if createFailure.Some? {
        error := Some(if createFailure.value == "" then "Registration failed" else createFailure.value);
      }
      loading := false;
      return true;
    }
  }
}
