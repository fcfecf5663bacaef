/**
 * The password-recovery screen of the login flow, which talks to the auth
 * provider itself instead of going through the recovery view-model. Its
 * rules differ from the view-model's: the e-mail is sent untrimmed, typing
 * keeps the error, and a failure without an exception changes nothing.
 */
module RecoveryScreen {
  import opened Wrappers
  import opened Text
  import Validation
  import RecoveryViewModel

  datatype Screen = Screen(email: string, emailError: Option<string>, showDialog: bool)

  const Initial := Screen("", None, false)

  /** How the reset request ended: success, or failure with an optional
      exception carrying an optional message. */
  datatype ResetOutcome = ResetSent | ResetFailed(exception: Option<Option<string>>)

  /** Editing the field; the error stays until the next click. */
  function OnEmailChange(s: Screen, email: string): (r: Screen)
    ensures r.email == email && r.emailError == s.emailError && r.showDialog == s.showDialog
  {
    s.(email := email)
  }

  /** The send button: a blank e-mail sets the error and sends nothing;
      otherwise the error clears and the e-mail goes out as typed. */
  function OnSendClick(s: Screen): (r: (Screen, Option<string>))
    ensures r.1.None? <==> IsBlank(s.email)
    ensures r.1.None? ==> r.0 == s.(emailError := Some(Validation.EMAIL_EMPTY))
    ensures r.1.Some? ==> r.0 == s.(emailError := None) && r.1.value == s.email
  {
    if IsBlank(s.email) then (s.(emailError := Some(Validation.EMAIL_EMPTY)), None)
    else (s.(emailError := None), Some(s.email))
  }

  /** The error for a failure whose exception has the given message; a
      null message is never the missing-account case and prints as "null". */
  function FailureMessage(message: Option<string>): (m: string)
    ensures m == RecoveryViewModel.NO_ACCOUNT <==>
      message.Some? && exists i: nat :: MatchesIgnoreCaseAt(message.value, RecoveryViewModel.NO_USER_RECORD, i)
    ensures m != RecoveryViewModel.NO_ACCOUNT ==> m == "Failed to send reset email. Error: " + Show(message)
  {
    if message.Some? && ContainsIgnoreCase(message.value, RecoveryViewModel.NO_USER_RECORD) then
      ContainsIgnoreCaseAtSomeIndex(message.value, RecoveryViewModel.NO_USER_RECORD);
      RecoveryViewModel.NO_ACCOUNT
    else
      ContainsIgnoreCaseAtSomeIndex(message.GetOr(""), RecoveryViewModel.NO_USER_RECORD);
      var m := "Failed to send reset email. Error: " + Show(message);
      assert m[0] != RecoveryViewModel.NO_ACCOUNT[0];
      m
  }

  /** The provider answered: the dialog shows exactly on success; a failure
      sets the error only when it carries an exception. */
  function OnResetComplete(s: Screen, outcome: ResetOutcome): (r: Screen)
    ensures r.showDialog <==> outcome.ResetSent?
    ensures r.email == s.email
    ensures outcome.ResetSent? || outcome.exception.None? ==> r.emailError == s.emailError
    ensures outcome.ResetFailed? && outcome.exception.Some? ==> r.emailError == Some(FailureMessage(outcome.exception.value))
  {
    match outcome
    case ResetSent => s.(showDialog := true)
    case ResetFailed(None) => s.(showDialog := false)
    case ResetFailed(Some(message)) => s.(emailError := Some(FailureMessage(message)), showDialog := false)
  }

  /** Dismissing the dialog hides it and navigates up (the `bool`). */
  function OnDismissDialog(s: Screen): (r: (Screen, bool))
    ensures r.0 == s.(showDialog := false) && r.1
  {
    (s.(showDialog := false), true)
  }

  /** The screen sends padded input as typed where the view-model trims
      it, so the two paths request different addresses. */
  lemma ScreenDoesNotTrim(email: string)
    requires !IsBlank(email) && IsWhitespace(email[0])
    ensures var sent := OnSendClick(Screen(email, None, false)).1;
            var trimmed := RecoveryViewModel.SendResetEmail(RecoveryViewModel.RecoveryVm(email, None, false, false)).1;
            sent.Some? && trimmed.Some? && sent.value != trimmed.value
  {
  }

  /** The two recovery paths word the same provider failure differently. */
  lemma WordingDiffers(message: string)
    requires !ContainsIgnoreCase(message, RecoveryViewModel.NO_USER_RECORD)
    ensures FailureMessage(Some(message)) != RecoveryViewModel.ResetFailureMessage(Some(message))
  {
    ContainsIgnoreCaseAtSomeIndex(message, RecoveryViewModel.NO_USER_RECORD);
    var a := FailureMessage(Some(message));
    assert a == "Failed to send reset email. Error: " + message;
  }
}
