/**
 * The sign-in view-model's `SignInState`: seeded from an existing session,
 * then overwritten by each sign-in result.
 */
module SignInViewModel {
  import opened Wrappers
  import opened Models
  import EmailAuthClient

  /** Construction: the federated session first, then the e-mail session. */
  function Init(googleUser: Option<Userdata>, emailUser: Option<Userdata>): (r: SignInState)
    ensures googleUser.Some? ==> r == SignInState(true, None, googleUser)
    ensures googleUser.None? && emailUser.Some? ==> r == SignInState(true, None, emailUser)
    ensures googleUser.None? && emailUser.None? ==> r == DefaultSignInState
  {
    var signedIn := if googleUser.Some? then googleUser else emailUser;
    if signedIn.Some? then DefaultSignInState.(userData := signedIn, isSignInSuccessful := true)
    else DefaultSignInState
  }

  /** A sign-in result replaces all three fields. */
  function OnSignInResult(state: SignInState, result: SignInResult): (r: SignInState)
    ensures r.isSignInSuccessful <==> result.data.Some?
    ensures r.signInError == result.errorMessage && r.userData == result.data
  {
    state.(isSignInSuccessful := result.data != None, signInError := result.errorMessage, userData := result.data)
  }

  function ResetState(state: SignInState): (r: SignInState)
    ensures r == SignInState(false, None, None)
  {
    DefaultSignInState
  }

  function GetUserData(state: SignInState): (r: Option<Userdata>)
    ensures r == state.userData
  {
    state.userData
  }

  /** Records a signed-in user; an earlier error message stays. */
  function OnSignInSuccess(state: SignInState, user: Userdata): (r: SignInState)
    ensures r.userData == Some(user) && r.isSignInSuccessful && r.signInError == state.signInError
  {
    state.(userData := Some(user), isSignInSuccessful := true)
  }

  /** A result forgets the state it lands on. */
  lemma SignInResultForgetsState(s1: SignInState, s2: SignInState, result: SignInResult)
    ensures OnSignInResult(s1, result) == OnSignInResult(s2, result)
  {
  }

  /** Feeding the e-mail client's sign-in into the view-model: the state
      reports success exactly when the provider authenticated a user, and
      then holds no error. */
  lemma EmailSignInReachesState(state: SignInState, email: string, outcome: EmailAuthClient.AuthOutcome)
    requires !outcome.OtherException?
    ensures var r := OnSignInResult(state, EmailAuthClient.SignIn(email, outcome).result);
            && (r.isSignInSuccessful <==> outcome.Authenticated? && outcome.user.Some?)
            && (r.isSignInSuccessful ==> r.signInError.None? && GetUserData(r).value.email == email)
  {
  }
}
