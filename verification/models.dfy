/**
 * The application's records: the three Firestore entities (`Medicine`,
 * `Aisle`, `History`), the auth result types and the login UI state.
 * Kotlin defaults that come from a clock or `UUID.randomUUID()` are not
 * constants here: whoever builds such a record passes them in.
 */
module Models {
  import opened Wrappers
  import opened Decimal

  /** One stock movement of a medicine. */
  datatype History = History(medicineName: string, userId: string, date: string, details: string)

  /** A medicine document of the "medicines" collection. `stock` is a Kotlin `Int`. */
  datatype Medicine = Medicine(
    name: string,
    stock: Int32,
    nameAisle: string,
    histories: seq<History>,
    id: string,
    addedByEmail: string)

  /** `Medicine(name, stock, nameAisle)` with every other field at its default. */
  function NewMedicine(name: string, stock: Int32, nameAisle: string): Medicine {
    Medicine(name, stock, nameAisle, [], "", "")
  }

  /** An aisle document of the "aisles" collection. `id` defaults to a random
      UUID and `timestamp` to the current time in the source; both are inputs here. */
  datatype Aisle = Aisle(name: string, id: string, timestamp: int)

  /** The signed-in user as the auth clients report it. */
  datatype Userdata = Userdata(
    userId: string,
    userName: string,
    email: string,
    profilePictureUrl: Option<string>,
    photoUrl: Option<string>)

  datatype SignInResult = SignInResult(data: Option<Userdata>, errorMessage: Option<string>)

  datatype SignInState = SignInState(isSignInSuccessful: bool, signInError: Option<string>, userData: Option<Userdata>)

  /** `SignInState()`. */
  const DefaultSignInState := SignInState(false, None, None)

  datatype LoginUiState = LoginUiState(
    email: string,
    password: string,
    emailError: Option<string>,
    passwordError: Option<string>,
    passwordVisible: bool,
    currentStep: int,
    isLoading: bool)

  /** `LoginUiState()`. */
  const DefaultLoginUiState := LoginUiState("", "", None, None, false, 1, false)

  /** What a sign-in or account-creation request sends to the auth provider. */
  datatype Credentials = Credentials(email: string, password: string)

  /** How a remote task without a result value completed; `message` is
      `task.exception?.message`, which may be null. */
  datatype TaskOutcome = Succeeded | Failed(message: Option<string>)

  /** The `users/<uid>` document the sign-up flow writes. */
  datatype ProfileWrite = ProfileWrite(collection: string, documentId: string, fields: map<string, string>)

  function UserProfile(uid: string, firstName: string, lastName: string): (w: ProfileWrite)
    ensures w.collection == "users" && w.documentId == uid
    ensures w.fields.Keys == {"firstName", "lastName"}
    ensures w.fields["firstName"] == firstName && w.fields["lastName"] == lastName
  {
    ProfileWrite("users", uid, map["firstName" := firstName, "lastName" := lastName])
  }

  /** A one-shot event for the screen: navigate somewhere or show a message. */
  datatype UiEvent = Navigate(route: string) | ShowMessage(message: string)
}
