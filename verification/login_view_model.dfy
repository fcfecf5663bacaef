/**
 * The login view-model: a `LoginUiState` plus a one-shot event slot.
 * The remote sign-in is split in two: `OnSignIn` returns the credentials it
 * would send (or none), and `OnSignInComplete` is the provider's answer.
 */
module LoginViewModel {
  import opened Wrappers
  import opened Text
  import opened EmailPattern
  import opened Models
  import Validation

  datatype LoginVm = LoginVm(ui: LoginUiState, event: Option<UiEvent>)

  const Initial := LoginVm(DefaultLoginUiState, None)

  const POST_LOGIN_ROUTE := "aisle"
  const AUTH_FAILED := "Authentication failed"

  /** The view-model's private e-mail check, with the `[A-Za-z]{2,}` pattern. */
  function ValidateEmail(email: string): Option<string> {
    Validation.LoginEmailError(email, Letters)
  }

  function ValidatePassword(password: string): Option<string> {
    Validation.LoginPasswordError(password)
  }

  function OnEmailChange(vm: LoginVm, email: string): (r: LoginVm)
    ensures r.ui.email == email && r.ui.(email := vm.ui.email) == vm.ui && r.event == vm.event
  {
    vm.(ui := vm.ui.(email := email))
  }

  function OnPasswordChange(vm: LoginVm, password: string): (r: LoginVm)
    ensures r.ui.password == password && r.ui.(password := vm.ui.password) == vm.ui && r.event == vm.event
  {
    vm.(ui := vm.ui.(password := password))
  }

  /** Step 1 -> 2: a valid address moves to step 2 (by assignment, not by
      increment) and clears the error; an invalid one only sets the error. */
  function OnNextStep(vm: LoginVm): (r: LoginVm)
    ensures Matches(vm.ui.email, Letters) ==> r.ui.currentStep == 2 && r.ui.emailError.None?
    ensures !Matches(vm.ui.email, Letters) ==> r.ui.currentStep == vm.ui.currentStep && r.ui.emailError.Some?
    ensures IsBlank(vm.ui.email) ==> r.ui.emailError == Some(Validation.EMAIL_EMPTY)
    ensures r.ui.(emailError := vm.ui.emailError, currentStep := vm.ui.currentStep) == vm.ui
    ensures r.event == vm.event
  {
    var error := ValidateEmail(vm.ui.email);
    if error == None then vm.(ui := vm.ui.(emailError := None, currentStep := 2))
    else vm.(ui := vm.ui.(emailError := error))
  }

  /** Decrements the step, but never from step 1 or below. */
  function OnPreviousStep(vm: LoginVm): (r: LoginVm)
    ensures vm.ui.currentStep > 1 ==> r.ui.currentStep == vm.ui.currentStep - 1
    ensures vm.ui.currentStep <= 1 ==> r == vm
    ensures r.ui.(currentStep := vm.ui.currentStep) == vm.ui && r.event == vm.event
  {
    if vm.ui.currentStep > 1 then vm.(ui := vm.ui.(currentStep := vm.ui.currentStep - 1)) else vm
  }

  function TogglePasswordVisibility(vm: LoginVm): (r: LoginVm)
    ensures r.ui.passwordVisible != vm.ui.passwordVisible
    ensures r.ui.(passwordVisible := vm.ui.passwordVisible) == vm.ui && r.event == vm.event
  {
    vm.(ui := vm.ui.(passwordVisible := !vm.ui.passwordVisible))
  }

  /** The sign-in button: with any validation error both error fields are
      written and no request is made; otherwise the state is left as it is
      and the current credentials go to the provider. */
  function OnSignIn(vm: LoginVm): (r: (LoginVm, Option<Credentials>))
    ensures r.1.Some? <==> Matches(vm.ui.email, Letters) && !IsBlank(vm.ui.password)
    ensures r.1.Some? ==> r.0 == vm && r.1.value == Credentials(vm.ui.email, vm.ui.password)
    ensures r.1.None? ==> r.0.ui == vm.ui.(emailError := ValidateEmail(vm.ui.email), passwordError := ValidatePassword(vm.ui.password))
    ensures r.0.event == vm.event
  {
    var emailError := ValidateEmail(vm.ui.email);
    var passwordError := ValidatePassword(vm.ui.password);
    if emailError != None || passwordError != None then
      (vm.(ui := vm.ui.(emailError := emailError, passwordError := passwordError)), None)
    else (vm, Some(Credentials(vm.ui.email, vm.ui.password)))
  }

  /** The provider's answer to a sign-in request: only the event slot changes. */
  function OnSignInComplete(vm: LoginVm, success: bool): (r: LoginVm)
    ensures r.ui == vm.ui
    ensures success ==> r.event == Some(Navigate(POST_LOGIN_ROUTE))
    ensures !success ==> r.event == Some(ShowMessage(AUTH_FAILED))
  {
    vm.(event := Some(if success then Navigate(POST_LOGIN_ROUTE) else ShowMessage(AUTH_FAILED)))
  }

  /** Everything the screen can do to the view-model. */
  datatype Action =
    | EmailChanged(email: string)
    | PasswordChanged(password: string)
    | NextStep
    | PreviousStep
    | ToggleVisibility
    | SignIn
    | SignInCompleted(success: bool)

  function Apply(vm: LoginVm, a: Action): LoginVm {
    match a
    case EmailChanged(e) => OnEmailChange(vm, e)
    case PasswordChanged(p) => OnPasswordChange(vm, p)
    case NextStep => OnNextStep(vm)
    case PreviousStep => OnPreviousStep(vm)
    case ToggleVisibility => TogglePasswordVisibility(vm)
    case SignIn => OnSignIn(vm).0
    case SignInCompleted(ok) => OnSignInComplete(vm, ok)
  }

  function Run(vm: LoginVm, actions: seq<Action>): LoginVm
    decreases |actions|
  {
    if actions == [] then vm else Run(Apply(vm, actions[0]), actions[1..])
  }

  /** The login flow has exactly two steps. */
  ghost predicate StepInRange(vm: LoginVm) {
    1 <= vm.ui.currentStep <= 2
  }

  /** From the initial state, every sequence of actions keeps the step in
      {1, 2}: `OnNextStep` assigns 2 and `OnPreviousStep` stops at 1. */
  lemma {:induction false} RunKeepsStepInRange(vm: LoginVm, actions: seq<Action>)
    requires StepInRange(vm)
    ensures StepInRange(Run(vm, actions))
    decreases |actions|
  {
    if actions != [] {
      RunKeepsStepInRange(Apply(vm, actions[0]), actions[1..]);
    }
  }

  lemma InitialStepInRange()
    ensures StepInRange(Initial) && Initial.ui.currentStep == 1 && Initial.event.None?
  {
  }

  /** Repeating "next" changes nothing more. */
  lemma NextStepIdempotent(vm: LoginVm)
    ensures OnNextStep(OnNextStep(vm)) == OnNextStep(vm)
  {
  }

  /** Two toggles are the identity. */
  lemma ToggleTwiceIsIdentity(vm: LoginVm)
    ensures TogglePasswordVisibility(TogglePasswordVisibility(vm)) == vm
  {
  }
}
