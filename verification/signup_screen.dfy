/**
 * The sign-up screen in its self-contained form: screen-local state, the
 * platform e-mail matcher (`emailAddress`), and direct calls to the auth
 * provider and the document store, each split into request and completion.
 */
module SignUpScreen {
  import opened Wrappers
  import opened Text
  import opened Models
  import Validation
  import LoginTopAppBar
  import NameLastnameInput
  import PasswordInput
  import SignUpViewModel

  datatype Screen = Screen(
    email: string,
    name: string,
    lastname: string,
    emailError: Option<string>,
    currentStep: int,
    password: string,
    passwordError: Option<string>)

  const Initial := Screen("", "", "", None, 1, "", None)

  const BACK_ROUTE := "sign_in"

  /** What the screen does besides changing its own state. */
  datatype Effect = CallOnLoginSuccess | Toast(message: string)

  /** The e-mail step: an error is stored; no error starts the lookup. */
  function HandleEmailValidation(s: Screen, emailAddress: string -> bool): (r: (Screen, Option<string>))
    ensures r.0 == s.(emailError := Validation.SignUpEmailError(s.email, emailAddress))
    ensures r.1.Some? <==> !IsBlank(s.email) && emailAddress(s.email)
    ensures r.1.Some? ==> r.1.value == s.email
  {
    var error := Validation.SignUpEmailError(s.email, emailAddress);
    (s.(emailError := error), if error == None then Some(s.email) else None)
  }

  /** The lookup's answer: step 3 for a known address, 2 for a new one;
      a failure keeps the step and stores "Error: <message>". */
  function OnLookupComplete(s: Screen, outcome: SignUpViewModel.LookupOutcome): (r: Screen)
    ensures outcome.LookupSucceeded? ==>
      r == s.(currentStep := if outcome.signInMethods.Some? && |outcome.signInMethods.value| > 0 then 3 else 2)
    ensures outcome.LookupFailed? ==> r == s.(emailError := Some("Error: " + Show(outcome.message)))
  {
    match outcome
    case LookupSucceeded(methods) =>
      s.(currentStep := if methods.Some? && |methods.value| > 0 then 3 else 2)
    case LookupFailed(message) => s.(emailError := Some("Error: " + Show(message)))
  }

  /** The `onNext` callback of step 2, itself guarded on both fields. */
  function OnNameNext(s: Screen): (r: Screen)
    ensures r.currentStep == if !IsBlank(s.name) && !IsBlank(s.lastname) then 3 else s.currentStep
    ensures r.(currentStep := s.currentStep) == s
  {
    if !IsBlank(s.name) && !IsBlank(s.lastname) then s.(currentStep := 3) else s
  }

  /** A click on step 2's button: the input's own check, then the screen's. */
  function ClickNameNext(s: Screen): (r: Screen)
    ensures r.currentStep == 3 <==> (!IsBlank(s.name) && !IsBlank(s.lastname)) || s.currentStep == 3
    ensures r.(currentStep := s.currentStep) == s
  {
    if NameLastnameInput.OnNextClick(s.name, s.lastname).callsOnNext then OnNameNext(s) else s
  }

  /** The password step: an error is stored; no error starts account creation. */
  function HandlePasswordValidation(s: Screen): (r: (Screen, Option<Credentials>))
    ensures r.0 == s.(passwordError := Validation.SignUpPasswordError(s.password))
    ensures r.1.Some? <==> !IsBlank(s.password) && Utf16Length(s.password) >= Validation.MIN_PASSWORD_LENGTH
    ensures r.1.Some? ==> r.1.value == Credentials(s.email, s.password)
  {
    var error := Validation.SignUpPasswordError(s.password);
    (s.(passwordError := error), if error == None then Some(Credentials(s.email, s.password)) else None)
  }

  /** A click on step 3's button: `PasswordInput` validates (its error is
      its own, not the screen's), then the screen validates again with the
      same rule before creating the account. */
  function ClickSave(s: Screen): (r: (Screen, Option<Credentials>))
    ensures r.1.Some? <==> PasswordInput.OnLoginClick(s.password).callsOnLogin
    ensures !PasswordInput.OnLoginClick(s.password).callsOnLogin ==> r == (s, None)
    ensures PasswordInput.OnLoginClick(s.password).callsOnLogin ==>
      r == (s.(passwordError := None), Some(Credentials(s.email, s.password)))
  {
    if PasswordInput.OnLoginClick(s.password).callsOnLogin then HandlePasswordValidation(s) else (s, None)
  }

  /** The screen's save click and the view-model's password step request
      account creation for the same passwords, with the same credentials. */
  lemma ClickSaveAgreesWithViewModel(s: Screen, vm: SignUpViewModel.SignUpVm)
    requires vm.ui.email == s.email && vm.ui.password == s.password
    ensures ClickSave(s).1 == SignUpViewModel.ValidatePassword(vm).1
  {
  }

  /** Account creation finished: success writes the profile of the current
      user (none: nothing happens); failure signs in with the same credentials. */
  function OnCreateUserComplete(s: Screen, success: bool, currentUid: Option<string>): (r: SignUpViewModel.Followup)
    ensures success && currentUid.Some? ==> r == SignUpViewModel.SaveProfile(UserProfile(currentUid.value, s.name, s.lastname))
    ensures success && currentUid.None? ==> r == SignUpViewModel.NoFollowup
    ensures !success ==> r == SignUpViewModel.FallbackSignIn(Credentials(s.email, s.password))
  {
    if !success then SignUpViewModel.FallbackSignIn(Credentials(s.email, s.password))
    else match currentUid
      case None => SignUpViewModel.NoFollowup
      case Some(uid) => SignUpViewModel.SaveProfile(UserProfile(uid, s.name, s.lastname))
  }

  /** The profile write finished: only a success reaches `onLoginSuccess`. */
  function OnProfileSaved(outcome: TaskOutcome): (effects: seq<Effect>)
    ensures CallOnLoginSuccess in effects <==> outcome.Succeeded?
    ensures outcome.Succeeded? ==> effects == [CallOnLoginSuccess, Toast("Login Successful")]
    ensures outcome.Failed? ==> effects == [Toast("Failed to save user details: " + Show(outcome.message))]
  {
    match outcome
    case Succeeded => [CallOnLoginSuccess, Toast("Login Successful")]
    case Failed(message) => [Toast("Failed to save user details: " + Show(message))]
  }

  /** The fallback sign-in finished: success reaches `onLoginSuccess`,
      failure stores "Error: <message>" as the password error. */
  function OnFallbackSignInComplete(s: Screen, outcome: TaskOutcome): (r: (Screen, seq<Effect>))
    ensures CallOnLoginSuccess in r.1 <==> outcome.Succeeded?
    ensures outcome.Succeeded? ==> r.0 == s && r.1 == [CallOnLoginSuccess, Toast("Login Successful")]
    ensures outcome.Failed? ==> r.0 == s.(passwordError := Some("Error: " + Show(outcome.message))) && r.1 == []
  {
    match outcome
    case Succeeded => (s, [CallOnLoginSuccess, Toast("Login Successful")])
    case Failed(message) => (s.(passwordError := Some("Error: " + Show(message))), [])
  }

  /** The top bar's back arrow, leaving for "sign_in" from step 1. */
  function OnBack(s: Screen): (r: (Screen, Option<string>))
    ensures s.currentStep > 1 ==> r.0 == s.(currentStep := s.currentStep - 1) && r.1.None?
    ensures s.currentStep <= 1 ==> r.0 == s && r.1 == Some(BACK_ROUTE)
  {
    var b := LoginTopAppBar.OnBackClick(s.currentStep, BACK_ROUTE);
    (s.(currentStep := b.step), b.navigateTo)
  }
}
