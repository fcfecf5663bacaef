/**
 * The older, self-contained login screen: its state lives in the screen
 * itself, it validates e-mail with the `[A-Z|a-z]{2,}` pattern, and it
 * talks to the auth provider directly. Effects the screen performs on
 * completion (navigation, toasts) are returned as values.
 */
module LogInScreen {
  import opened Wrappers
  import opened Text
  import opened EmailPattern
  import opened Models
  import Validation
  import LoginTopAppBar
  import LoginViewModel

  datatype Screen = Screen(
    email: string,
    password: string,
    emailError: Option<string>,
    passwordError: Option<string>,
    currentStep: int,
    passwordVisible: bool)

  const Initial := Screen("", "", None, None, 1, false)

  /** What the screen does to the outside world once a request completes. */
  datatype Effect =
    | NavigateTo(route: string, clearBackStack: bool)
    | Toast(message: string)

  const BACK_ROUTE := "email_sign_in"

  /** The screen's own `validateEmail`, built on `isValidEmail`. */
  function ValidateEmail(email: string): Option<string> {
    Validation.LoginEmailError(email, LettersOrBar)
  }

  function ValidatePassword(password: string): Option<string> {
    Validation.LoginPasswordError(password)
  }

  /** The "Next" button of step 1. */
  function OnNext(s: Screen): (r: Screen)
    ensures r.emailError.None? <==> Matches(s.email, LettersOrBar)
    ensures r.currentStep == if Matches(s.email, LettersOrBar) then 2 else s.currentStep
    ensures r.(emailError := s.emailError, currentStep := s.currentStep) == s
  {
    var error := ValidateEmail(s.email);
    if error == None then s.(emailError := None, currentStep := 2) else s.(emailError := error)
  }

  /** The "Sign in" button of step 2: the password error is recomputed, the
      e-mail error is the one step 1 left behind. */
  function OnSignIn(s: Screen): (r: (Screen, Option<Credentials>))
    ensures r.0 == s.(passwordError := ValidatePassword(s.password))
    ensures r.1.Some? <==> s.emailError.None? && !IsBlank(s.password)
    ensures r.1.Some? ==> r.1.value == Credentials(s.email, s.password)
  {
    var passwordError := ValidatePassword(s.password);
    var s' := s.(passwordError := passwordError);
    if s.emailError == None && passwordError == None then (s', Some(Credentials(s.email, s.password)))
    else (s', None)
  }

  function TogglePasswordVisibility(s: Screen): (r: Screen)
    ensures r.passwordVisible != s.passwordVisible && r.(passwordVisible := s.passwordVisible) == s
  {
    s.(passwordVisible := !s.passwordVisible)
  }

  /** The screen's copy of the top-bar back arrow. */
  function OnBack(s: Screen): (r: (Screen, Option<string>))
    ensures s.currentStep > 1 ==> r.0 == s.(currentStep := s.currentStep - 1) && r.1.None?
    ensures s.currentStep <= 1 ==> r.0 == s && r.1 == Some(BACK_ROUTE)
  {
    var b := LoginTopAppBar.OnBackClick(s.currentStep, BACK_ROUTE);
    (s.(currentStep := b.step), b.navigateTo)
  }

  /** `signInWithEmail`'s completion: success goes to the aisle list with the
      whole back stack popped, then a toast; failure only toasts. */
  function SignInOutcome(success: bool): (effects: seq<Effect>)
    ensures success <==> exists i | 0 <= i < |effects| :: effects[i].NavigateTo?
    ensures success ==> effects == [NavigateTo("aisle", true), Toast("Sign in successful")]
    ensures !success ==> effects == [Toast("Authentication failed")]
  {
    if success then
      var effects := [NavigateTo("aisle", true), Toast("Sign in successful")];
      assert effects[0].NavigateTo?;
      effects
    else [Toast("Authentication failed")]
  }

  /** On the happy path the screen reaches the provider: a valid e-mail on
      step 1 and any non-blank password on step 2. */
  lemma TwoStepsReachProvider(email: string, password: string)
    requires Matches(email, LettersOrBar) && !IsBlank(password)
    ensures var s1 := OnNext(Initial.(email := email));
            s1.currentStep == 2 && OnSignIn(s1.(password := password)).1 == Some(Credentials(email, password))
  {
  }

  /** The screen accepts every address the view-model accepts. */
  lemma ScreenAcceptsViewModelEmails(email: string)
    ensures LoginViewModel.ValidateEmail(email).None? ==> ValidateEmail(email).None?
  {
    StrictImpliesRelaxed(email);
  }
}
