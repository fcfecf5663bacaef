/**
 * The password-recovery view-model: e-mail, its error, a success flag
 * driving the confirmation dialog, and a loading flag.
 */
module RecoveryViewModel {
  import opened Wrappers
  import opened Text
  import opened Models
  import Validation

  datatype RecoveryVm = RecoveryVm(email: string, emailError: Option<string>, isSuccess: bool, isLoading: bool)

  const Initial := RecoveryVm("", None, false, false)

  const NO_ACCOUNT := "No account found with this email address."
  const NO_USER_RECORD := "no user record"

  function OnEmailChange(vm: RecoveryVm, email: string): (r: RecoveryVm)
    ensures r == vm.(email := email, emailError := None)
  {
    vm.(email := email, emailError := None)
  }

  /** Trims the e-mail; a blank one is refused without a remote call and
      without touching the loading flag; otherwise the trimmed address is
      sent and the loading flag set. */
  function SendResetEmail(vm: RecoveryVm): (r: (RecoveryVm, Option<string>))
    ensures r.1.None? <==> IsBlank(vm.email)
    ensures r.1.None? ==> r.0 == vm.(emailError := Some(Validation.EMAIL_EMPTY))
    ensures r.1.Some? ==> r.0 == vm.(isLoading := true) && r.1.value == Trim(vm.email)
    ensures r.1.Some? ==> r.1.value != [] && !IsWhitespace(r.1.value[0]) && !IsWhitespace(r.1.value[|r.1.value| - 1])
  {
    var emailValue := Trim(vm.email);
    if IsBlank(emailValue) then
      TrimPreservesBlank(vm.email);
      (vm.(emailError := Some(Validation.EMAIL_EMPTY)), None)
    else (vm.(isLoading := true), Some(emailValue))
  }

  /** The error shown for a failed reset, from the exception's message. */
  function ResetFailureMessage(message: Option<string>): (m: string)
    ensures var text := message.GetOr("Unknown error");
            m == NO_ACCOUNT <==> exists i: nat :: MatchesIgnoreCaseAt(text, NO_USER_RECORD, i)
    ensures var text := message.GetOr("Unknown error");
            m != NO_ACCOUNT ==> m == "Failed to send reset email: " + text
  {
    var text := message.GetOr("Unknown error");
    ContainsIgnoreCaseAtSomeIndex(text, NO_USER_RECORD);
    if ContainsIgnoreCase(text, NO_USER_RECORD) then NO_ACCOUNT
    else
      var m := "Failed to send reset email: " + text;
      assert m[0] != NO_ACCOUNT[0];
      m
  }

  /** The reset request finished: the loading flag always clears; success
      raises the dialog flag, failure sets the error. */
  function OnResetComplete(vm: RecoveryVm, outcome: TaskOutcome): (r: RecoveryVm)
    ensures !r.isLoading && r.email == vm.email
    ensures outcome.Succeeded? ==> r == vm.(isLoading := false, isSuccess := true)
    ensures outcome.Failed? ==> r == vm.(isLoading := false, emailError := Some(ResetFailureMessage(outcome.message)))
  {
    match outcome
    case Succeeded => vm.(isLoading := false, isSuccess := true)
    case Failed(message) => vm.(isLoading := false, emailError := Some(ResetFailureMessage(message)))
  }

  function ResetDialog(vm: RecoveryVm): (r: RecoveryVm)
    ensures r == vm.(isSuccess := false)
  {
    vm.(isSuccess := false)
  }

  /** A message without the marker is echoed, e.g. a null message as
      "Unknown error", which is shorter than the marker. */
  lemma NullMessageIsUnknownError()
    ensures ResetFailureMessage(None) == "Failed to send reset email: " + "Unknown error"
  {
    var text := "Unknown error";
    assert |text| < |NO_USER_RECORD|;
    assert forall i: nat :: !MatchesIgnoreCaseAt(text, NO_USER_RECORD, i);
  }

  /** The marker is found whatever its case. */
  lemma MarkerIgnoresCase()
    ensures ResetFailureMessage(Some("NO USER RECORD")) == NO_ACCOUNT
  {
    var text := "NO USER RECORD";
    forall k | 0 <= k < |NO_USER_RECORD| ensures EqualsIgnoreCase(text[k], NO_USER_RECORD[k]) {
    }
    assert MatchesIgnoreCaseAt(text, NO_USER_RECORD, 0);
  }
}
