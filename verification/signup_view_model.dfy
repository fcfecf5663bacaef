/**
 * The sign-up view-model: a `SignUpUiState` and a one-shot `SignUpEvent`
 * slot. Every remote call is split into the request an operation returns
 * and a completion function that receives the provider's answer.
 */
module SignUpViewModel {
  import opened Wrappers
  import opened Text
  import opened Models
  import Validation
  import opened Decimal

  datatype SignUpUiState = SignUpUiState(
    email: string,
    name: string,
    lastname: string,
    password: string,
    emailError: Option<string>,
    passwordError: Option<string>,
    currentStep: Int32,
    isLoading: bool)

  datatype SignUpEvent = ShowMessage(message: string) | NavigateToAisle

  datatype SignUpVm = SignUpVm(ui: SignUpUiState, event: Option<SignUpEvent>)

  const Initial := SignUpVm(SignUpUiState("", "", "", "", None, None, 1, false), None)

  /** The answer to `fetchSignInMethodsForEmail`: on success the list of
      sign-in methods, which may itself be null. */
  datatype LookupOutcome = LookupSucceeded(signInMethods: Option<seq<string>>) | LookupFailed(message: Option<string>)

  /** The follow-up a completed account creation asks for. */
  datatype Followup = SaveProfile(write: ProfileWrite) | FallbackSignIn(credentials: Credentials) | NoFollowup

  function OnEmailChange(vm: SignUpVm, value: string): (r: SignUpVm)
    ensures r.ui.email == value && r.ui.(email := vm.ui.email) == vm.ui && r.event == vm.event
  {
    vm.(ui := vm.ui.(email := value))
  }

  function OnNameChange(vm: SignUpVm, value: string): (r: SignUpVm)
    ensures r.ui.name == value && r.ui.(name := vm.ui.name) == vm.ui && r.event == vm.event
  {
    vm.(ui := vm.ui.(name := value))
  }

  function OnLastnameChange(vm: SignUpVm, value: string): (r: SignUpVm)
    ensures r.ui.lastname == value && r.ui.(lastname := vm.ui.lastname) == vm.ui && r.event == vm.event
  {
    vm.(ui := vm.ui.(lastname := value))
  }

  function OnPasswordChange(vm: SignUpVm, value: string): (r: SignUpVm)
    ensures r.ui.password == value && r.ui.(password := vm.ui.password) == vm.ui && r.event == vm.event
  {
    vm.(ui := vm.ui.(password := value))
  }

  /** Checks the e-mail (the platform matcher is `emailAddress`). An error is
      stored and nothing else happens; a valid address sets the loading flag
      and is looked up remotely. */
  function ValidateEmail(vm: SignUpVm, emailAddress: string -> bool): (r: (SignUpVm, Option<string>))
    ensures r.1.Some? <==> !IsBlank(vm.ui.email) && emailAddress(vm.ui.email)
    ensures r.1.Some? ==> r.1.value == vm.ui.email && r.0.ui == vm.ui.(isLoading := true)
    ensures r.1.None? ==> r.0.ui == vm.ui.(emailError := Validation.SignUpEmailError(vm.ui.email, emailAddress))
    ensures r.0.event == vm.event
  {
    var emailError := Validation.SignUpEmailError(vm.ui.email, emailAddress);
    if emailError != None then (vm.(ui := vm.ui.(emailError := emailError)), None)
    else (vm.(ui := vm.ui.(isLoading := true)), Some(vm.ui.email))
  }

  /** The lookup's answer: an address with sign-in methods skips to the
      password step (3), a new one goes to the name step (2); a failure
      keeps the step and reports "Error: <message>". */
  function OnLookupComplete(vm: SignUpVm, outcome: LookupOutcome): (r: SignUpVm)
    ensures !r.ui.isLoading && r.event == vm.event
    ensures outcome.LookupSucceeded? ==>
      && r.ui.emailError.None?
      && r.ui.currentStep == (if outcome.signInMethods.Some? && |outcome.signInMethods.value| > 0 then 3 else 2)
    ensures outcome.LookupFailed? ==>
      r.ui.currentStep == vm.ui.currentStep && r.ui.emailError == Some("Error: " + Show(outcome.message))
    ensures r.ui.(emailError := vm.ui.emailError, currentStep := vm.ui.currentStep, isLoading := vm.ui.isLoading) == vm.ui
  {
    var ui := vm.ui.(isLoading := false);
    match outcome
    case LookupSucceeded(methods) =>
      var existing := methods.Some? && |methods.value| > 0;
      vm.(ui := ui.(currentStep := if existing then 3 else 2, emailError := None))
    case LookupFailed(message) =>
      vm.(ui := ui.(emailError := Some("Error: " + Show(message))))
  }

  /** Checks the password (blank, then length). An error is stored and
      nothing else happens; a valid password sets the loading flag and asks
      the provider to create the account. */
  function ValidatePassword(vm: SignUpVm): (r: (SignUpVm, Option<Credentials>))
    ensures r.1.Some? <==> !IsBlank(vm.ui.password) && Utf16Length(vm.ui.password) >= Validation.MIN_PASSWORD_LENGTH
    ensures r.1.Some? ==> r.1.value == Credentials(vm.ui.email, vm.ui.password) && r.0.ui == vm.ui.(isLoading := true)
    ensures r.1.None? ==> r.0.ui == vm.ui.(passwordError := Validation.SignUpPasswordError(vm.ui.password))
    ensures r.0.event == vm.event
  {
    var passwordError := Validation.SignUpPasswordError(vm.ui.password);
    if passwordError != None then (vm.(ui := vm.ui.(passwordError := passwordError)), None)
    else (vm.(ui := vm.ui.(isLoading := true)), Some(Credentials(vm.ui.email, vm.ui.password)))
  }

  /** Account creation finished. Success saves the profile of the current
      user (none: nothing at all happens, and the loading flag stays set);
      failure falls back to signing in with the same credentials. */
  function OnCreateUserComplete(vm: SignUpVm, success: bool, currentUid: Option<string>): (r: (SignUpVm, Followup))
    ensures r.0 == vm
    ensures success && currentUid.Some? ==> r.1 == SaveProfile(UserProfile(currentUid.value, vm.ui.name, vm.ui.lastname))
    ensures success && currentUid.None? ==> r.1 == NoFollowup
    ensures !success ==> r.1 == FallbackSignIn(Credentials(vm.ui.email, vm.ui.password))
  {
    if success then
      match currentUid
      case None => (vm, NoFollowup)
      case Some(uid) => (vm, SaveProfile(UserProfile(uid, vm.ui.name, vm.ui.lastname)))
    else (vm, FallbackSignIn(Credentials(vm.ui.email, vm.ui.password)))
  }

  /** Writes one value to the event slot; a later write replaces it. */
  function Emit(vm: SignUpVm, e: SignUpEvent): SignUpVm {
    vm.(event := Some(e))
  }

  /** The profile write finished: success emits a message and then the
      navigation event, which is what the slot holds afterwards. */
  function OnProfileSaved(vm: SignUpVm, outcome: TaskOutcome): (r: SignUpVm)
    ensures !r.ui.isLoading && r.ui.(isLoading := vm.ui.isLoading) == vm.ui
    ensures outcome.Succeeded? ==> r.event == Some(NavigateToAisle)
    ensures outcome.Failed? ==> r.event == Some(SignUpEvent.ShowMessage("Failed to save user data: " + Show(outcome.message)))
  {
    match outcome
    case Succeeded =>
      Emit(Emit(vm, SignUpEvent.ShowMessage("Registration successful")), NavigateToAisle).(ui := vm.ui.(isLoading := false))
    case Failed(message) =>
      Emit(vm, SignUpEvent.ShowMessage("Failed to save user data: " + Show(message))).(ui := vm.ui.(isLoading := false))
  }

  /** The fallback sign-in finished: success navigates, failure reports the
      provider's message as the password error. */
  function OnFallbackSignInComplete(vm: SignUpVm, outcome: TaskOutcome): (r: SignUpVm)
    ensures !r.ui.isLoading
    ensures outcome.Succeeded? ==> r.event == Some(NavigateToAisle) && r.ui == vm.ui.(isLoading := false)
    ensures outcome.Failed? ==> r.event == vm.event && r.ui == vm.ui.(isLoading := false, passwordError := Some("Error: " + Show(outcome.message)))
  {
    var vm' := vm.(ui := vm.ui.(isLoading := false));
    match outcome
    case Succeeded => Emit(Emit(vm', SignUpEvent.ShowMessage("Login successful")), NavigateToAisle)
    case Failed(message) => vm'.(ui := vm'.ui.(passwordError := Some("Error: " + Show(message))))
  }

  /** Increments the step, as a Kotlin `Int`: there is no upper bound
      short of the wrap-around at `Int.MAX_VALUE`. */
  function GoToNextStep(vm: SignUpVm): (r: SignUpVm)
    ensures vm.ui.currentStep < INT_MAX ==> r.ui.currentStep == vm.ui.currentStep + 1
    ensures vm.ui.currentStep == INT_MAX ==> r.ui.currentStep == INT_MIN
    ensures r.ui.(currentStep := vm.ui.currentStep) == vm.ui && r.event == vm.event
  {
    vm.(ui := vm.ui.(currentStep := Wrap(vm.ui.currentStep + 1)))
  }

  /** Decrements the step unless it is already 1 or below. */
  function GoToPreviousStep(vm: SignUpVm): (r: SignUpVm)
    ensures vm.ui.currentStep <= 1 ==> r == vm
    ensures vm.ui.currentStep > 1 ==> r.ui.currentStep == vm.ui.currentStep - 1
    ensures r.ui.(currentStep := vm.ui.currentStep) == vm.ui && r.event == vm.event
  {
    if vm.ui.currentStep > 1 then vm.(ui := vm.ui.(currentStep := vm.ui.currentStep - 1)) else vm
  }

  function ClearEvent(vm: SignUpVm): (r: SignUpVm)
    ensures r.event.None? && r.ui == vm.ui
  {
    vm.(event := None)
  }

  /** "Previous" undoes "next" from any step of the flow below the `Int`
      maximum; at the maximum "next" wraps to `Int.MIN_VALUE`, and
      "previous" cannot come back from there. */
  lemma PreviousUndoesNext(vm: SignUpVm)
    requires 1 <= vm.ui.currentStep < INT_MAX
    ensures GoToPreviousStep(GoToNextStep(vm)) == vm
  {
  }

  /** At the `Int` maximum "next" wraps to `Int.MIN_VALUE`, where
      "previous" leaves the step alone. */
  lemma NextAtMaximumIsNotUndone(vm: SignUpVm)
    requires vm.ui.currentStep == INT_MAX
    ensures GoToPreviousStep(GoToNextStep(vm)).ui.currentStep == INT_MIN
  {
  }

  /** Validation errors never start a remote call nor touch the loading flag. */
  lemma ErrorsLeaveLoadingAlone(vm: SignUpVm, emailAddress: string -> bool)
    ensures ValidateEmail(vm, emailAddress).1.None? ==> ValidateEmail(vm, emailAddress).0.ui.isLoading == vm.ui.isLoading
    ensures ValidatePassword(vm).1.None? ==> ValidatePassword(vm).0.ui.isLoading == vm.ui.isLoading
  {
  }

  /** Account created but no current user: the flow stops with the loading
      flag still set. */
  lemma NoCurrentUserLeavesLoading(vm: SignUpVm)
    requires ValidatePassword(vm).1.Some?
    ensures var vm' := ValidatePassword(vm).0;
            var (r, f) := OnCreateUserComplete(vm', true, None);
            f == NoFollowup && r.ui.isLoading
  {
  }

  /** The sign-up happy path: a new address, a name, a six-character
      password, account creation and the profile write end on exactly the
      navigation event. */
  lemma HappyPath(emailAddress: string -> bool, uid: string)
    requires emailAddress("user@example.com")
    ensures
      var vm0 := OnEmailChange(Initial, "user@example.com");
      var (vm1, lookup) := ValidateEmail(vm0, emailAddress);
      var vm2 := OnLookupComplete(vm1, LookupSucceeded(Some([])));
      var vm3 := GoToNextStep(OnLastnameChange(OnNameChange(vm2, "John"), "Doe"));
      var (vm4, create) := ValidatePassword(OnPasswordChange(vm3, "123456"));
      var (vm5, followup) := OnCreateUserComplete(vm4, true, Some(uid));
      var vm6 := OnProfileSaved(vm5, Succeeded);
      && lookup == Some("user@example.com")
      && vm2.ui.currentStep == 2
      && vm3.ui.currentStep == 3
      && create == Some(Credentials("user@example.com", "123456"))
      && followup == SaveProfile(UserProfile(uid, "John", "Doe"))
      && vm6.event == Some(NavigateToAisle)
      && !vm6.ui.isLoading
  {
    assert !IsWhitespace("user@example.com"[0]);
    assert !IsWhitespace("123456"[0]);
  }
}
