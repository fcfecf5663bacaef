/**
 * Step 3 of the sign-up screen: the save button validates the password
 * (blank, then length) and calls `onLogin` exactly when it passes.
 */
module PasswordInput {
  import opened Wrappers
  import opened Text
  import Validation

  const PROCEEDING := "Proceeding with login"
  const VALIDATION_FAILED := "Password validation failed"

  datatype LoginClick = LoginClick(passwordError: Option<string>, callsOnLogin: bool, toast: string)

  function OnLoginClick(password: string): (r: LoginClick)
    ensures r.passwordError == Some(Validation.PASSWORD_EMPTY) <==> IsBlank(password)
    ensures r.passwordError == Some(Validation.PASSWORD_TOO_SHORT) <==> !IsBlank(password) && Utf16Length(password) < 6
    ensures r.callsOnLogin <==> !IsBlank(password) && Utf16Length(password) >= 6
    ensures r.callsOnLogin <==> r.passwordError.None?
    ensures r.toast == if r.callsOnLogin then PROCEEDING else VALIDATION_FAILED
  {
    var error := Validation.SignUpPasswordError(password);
    if error == None then LoginClick(None, true, PROCEEDING)
    else LoginClick(error, false, VALIDATION_FAILED)
  }
}
