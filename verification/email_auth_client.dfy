/**
 * The password-based auth client: turns the provider's answer to a sign-in
 * or account-creation call into a `SignInResult`, and reads the current
 * session. Only the provider's own auth exceptions become results; any
 * other exception leaves the call.
 */
module EmailAuthClient {
  import opened Wrappers
  import opened Models
  import Text

  /** The provider's view of a signed-in user. */
  datatype FirebaseUser = FirebaseUser(uid: string, displayName: Option<string>, email: Option<string>, photoUrl: Option<string>)

  /** How the provider call ended: with a (possibly null) user, with an auth
      exception carrying an error code, or with some other exception. */
  datatype AuthOutcome =
    | Authenticated(user: Option<FirebaseUser>)
    | AuthException(errorCode: string, localizedMessage: Option<string>)
    | OtherException(message: Option<string>)

  /** A call returns a result or lets an exception through. */
  datatype Call = Returned(result: SignInResult) | Propagated(message: Option<string>)

  const USER_NOT_FOUND := "ERROR_USER_NOT_FOUND"
  const WRONG_PASSWORD := "ERROR_WRONG_PASSWORD"
  const EMAIL_ALREADY_IN_USE := "ERROR_EMAIL_ALREADY_IN_USE"
  const WEAK_PASSWORD := "ERROR_WEAK_PASSWORD"
  const INVALID_EMAIL := "ERROR_INVALID_EMAIL"

  /** The message for a failed sign-in: two known codes have fixed texts,
      every other code reports the provider's message. */
  function SignInErrorMessage(code: string, localizedMessage: Option<string>): (m: string)
    ensures m == "User not found" <==> code == USER_NOT_FOUND
    ensures m == "Wrong password" <==> code == WRONG_PASSWORD
    ensures code != USER_NOT_FOUND && code != WRONG_PASSWORD ==> m == "Sign in failed: " + Text.Show(localizedMessage)
  {
    if code == USER_NOT_FOUND then "User not found"
    else if code == WRONG_PASSWORD then "Wrong password"
    else
      var m := "Sign in failed: " + Text.Show(localizedMessage);
      assert m[0] == 'S';
      m
  }

  /** The message for a failed account creation. */
  function CreateUserErrorMessage(code: string, localizedMessage: Option<string>): (m: string)
    ensures m == "Email already in use" <==> code == EMAIL_ALREADY_IN_USE
    ensures m == "Weak password" <==> code == WEAK_PASSWORD
    ensures m == "Invalid email" <==> code == INVALID_EMAIL
    ensures code != EMAIL_ALREADY_IN_USE && code != WEAK_PASSWORD && code != INVALID_EMAIL ==>
      m == "Sign up failed: " + Text.Show(localizedMessage)
  {
    if code == EMAIL_ALREADY_IN_USE then "Email already in use"
    else if code == WEAK_PASSWORD then "Weak password"
    else if code == INVALID_EMAIL then "Invalid email"
    else
      var m := "Sign up failed: " + Text.Show(localizedMessage);
      assert m[0] == 'S' && m[5] == 'u';
      m
  }

  /** `signIn(email, password)`: the user's uid, display name (or "") and the
      e-mail as typed; the photo URL fills both picture fields. */
  function SignIn(email: string, outcome: AuthOutcome): (r: Call)
    ensures r.Propagated? <==> outcome.OtherException?
    ensures r.Returned? ==> (r.result.data.Some? <==> outcome.Authenticated? && outcome.user.Some?)
    ensures r.Returned? ==> (r.result.errorMessage.Some? <==> outcome.AuthException?)
    ensures outcome.Authenticated? && outcome.user.Some? ==>
      var u := outcome.user.value;
      r.result.data == Some(Userdata(u.uid, u.displayName.GetOr(""), email, u.photoUrl, u.photoUrl))
    ensures outcome.AuthException? ==>
      r.result.errorMessage == Some(SignInErrorMessage(outcome.errorCode, outcome.localizedMessage))
  {
    match outcome
    case Authenticated(user) =>
      var data := match user
        case None => None
        case Some(u) => Some(Userdata(u.uid, u.displayName.GetOr(""), email, u.photoUrl, u.photoUrl));
      Returned(SignInResult(data, None))
    case AuthException(code, message) => Returned(SignInResult(None, Some(SignInErrorMessage(code, message))))
    case OtherException(message) => Propagated(message)
  }

  /** `createUser(email, password)`: the e-mail doubles as the user name and
      there is no profile picture. */
  function CreateUser(email: string, outcome: AuthOutcome): (r: Call)
    ensures r.Propagated? <==> outcome.OtherException?
    ensures r.Returned? ==> (r.result.data.Some? <==> outcome.Authenticated? && outcome.user.Some?)
    ensures r.Returned? ==> (r.result.errorMessage.Some? <==> outcome.AuthException?)
    ensures outcome.Authenticated? && outcome.user.Some? ==>
      var u := outcome.user.value;
      r.result.data == Some(Userdata(u.uid, email, email, None, u.photoUrl))
    ensures outcome.AuthException? ==>
      r.result.errorMessage == Some(CreateUserErrorMessage(outcome.errorCode, outcome.localizedMessage))
  {
    match outcome
    case Authenticated(user) =>
      var data := match user
        case None => None
        case Some(u) => Some(Userdata(u.uid, email, email, None, u.photoUrl));
      Returned(SignInResult(data, None))
    case AuthException(code, message) => Returned(SignInResult(None, Some(CreateUserErrorMessage(code, message))))
    case OtherException(message) => Propagated(message)
  }

  /** The current session, if it has an e-mail; the user name falls back
      from the display name to the e-mail. */
  function GetSignedInUser(current: Option<FirebaseUser>): (r: Option<Userdata>)
    ensures r.Some? <==> current.Some? && current.value.email.Some?
    ensures r.Some? ==>
      var u := current.value;
      && r.value.userId == u.uid
      && r.value.email == u.email.value
      && r.value.userName == (if u.displayName.Some? then u.displayName.value else u.email.value)
      && r.value.profilePictureUrl == u.photoUrl && r.value.photoUrl == u.photoUrl
  {
    match current
    case None => None
    case Some(u) =>
      match u.email
      case None => None
      case Some(e) => Some(Userdata(u.uid, u.displayName.GetOr(u.email.GetOr("")), e, u.photoUrl, u.photoUrl))
  }

  /** A returned result never carries both a user and an error. */
  lemma NeverBoth(email: string, outcome: AuthOutcome)
    ensures SignIn(email, outcome).Returned? ==>
      !(SignIn(email, outcome).result.data.Some? && SignIn(email, outcome).result.errorMessage.Some?)
    ensures CreateUser(email, outcome).Returned? ==>
      !(CreateUser(email, outcome).result.data.Some? && CreateUser(email, outcome).result.errorMessage.Some?)
  {
  }

  /** It can carry neither: a successful call whose user is null. */
  lemma NullUserGivesNeither(email: string)
    ensures SignIn(email, Authenticated(None)) == Returned(SignInResult(None, None))
    ensures CreateUser(email, Authenticated(None)) == Returned(SignInResult(None, None))
  {
  }
}
