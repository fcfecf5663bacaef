# Rebonnte core, modelled in Dafny

Rebonnte is an Android app for managing the medicine stock of a pharmacy.
Users sign up or log in with e-mail and password, browse aisles, add
medicines to an aisle, and raise or lower each medicine's stock; every
change to the stock is recorded in the medicine's history. The data lives
in a Firestore document store, which pushes snapshots to listeners.

This project models the app's core as pure Dafny functions over immutable
datatypes:

- the input validators: e-mail, password, name and surname;
- the hand-written e-mail pattern, as an executable decider proved equal to
  an existential reference predicate, in both its variants
  (`[A-Za-z]{2,}` and `[A-Z|a-z]{2,}` for the top-level domain);
- the login, sign-up, sign-in and password-recovery state machines, both in
  their view-model form and in the older screens that keep their own state;
- the e-mail auth client, which maps provider outcomes to a sign-in result;
- the medicine and aisle repositories: the collection mirror, the listener
  registration, optimistic adds with rollback, filtering and re-sorting;
- the medicine and aisle view-models and the detail and add screens.

Every call to the auth provider or the document store is split into the
request an operation returns and a completion function that receives the
provider's answer. The answer is a parameter, and so are the clock, random
draws, fresh document ids and the signed-in user.

Kotlin semantics are written out where they matter:

- `isBlank` and `trim` use ASCII whitespace;
- `contains(…, ignoreCase = true)` lowers ASCII letters;
- a `"${x}"` template over a null value renders `null` (`Text.Show`);
- `toIntOrNull` and `toInt` accept an optional sign and fail outside the
  32-bit Int range (`Decimal.ParseInt`);
- `Int` addition wraps (`Decimal.Wrap`).

Modules follow the source files. Shared pieces are:

- `Wrappers`: an option type;
- `Text`: whitespace, trimming and case-insensitive search;
- `Decimal`: the Int range, rendering and parsing;
- `Models`: medicine, aisle, history and user-profile records;
- `Firestore`: the listener registry, documents, snapshot events and writes.

The registry holds the handle the repository keeps in its
`listenerRegistration` field and, separately, the set of listeners the store
still delivers to. Removing a listener takes it out of that set; the field is
only cleared by `clearListener`.

Three behaviours of the code are worth knowing before reading the model:

- `EmailAuthClient.SignIn` returns a result with neither a user nor an error
  when the provider succeeds with a null user
  (`EmailAuthClient.NullUserGivesNeither`), although a returned result never
  carries both (`EmailAuthClient.NeverBoth`).
- The medicine repository removes the previous listener before installing a
  new one, which its own comment gives as the way to avoid duplicates
  (MedecineRepository.kt:42-45), so at most one listener delivers
  (`MedicineRepository.Observe`). The aisle repository's `loadAisles`, meant
  to attach or re-attach its listener (AisleRepository.kt:30), removes the
  held listener at once but installs the new one only when its read
  completes, without removing any. Two reloads whose reads both complete
  afterwards therefore leave two live listeners
  (`AisleRepository.OverlappingReloadsLeaveTwoListeners`). At most one stays
  live when each read completes before the next reload
  (`AisleRepository.SequentialReloadKeepsOneListener`).
- The recovery screen sends the e-mail untrimmed, while the recovery
  view-model trims it (`RecoveryScreen.ScreenDoesNotTrim`). The two also word
  the failure message differently (`RecoveryScreen.WordingDiffers`).

## Model

| member | source | states |
|---|---|---|
| Validation.LoginEmailError | app/src/main/java/com/openclassrooms/rebonnte/ui/login/LoginViewModel.kt:65-71 | a blank address gets "Email cannot be empty", a non-blank one that fails the pattern gets "Email not valid", and there is no error exactly when the address matches the pattern |
| Validation.LoginPasswordError | app/src/main/java/com/openclassrooms/rebonnte/ui/login/LoginViewModel.kt:73-74 | "Password cannot be empty" exactly for a blank password, no error otherwise |
| Validation.SignUpEmailError | app/src/main/java/com/openclassrooms/rebonnte/ui/signup/SignUpViewModel.kt:55-59 | blank gives "Email cannot be empty", a non-blank address the platform matcher rejects gives "Please enter a valid email address", and there is no error exactly when the address is non-blank and accepted |
| Validation.SignUpPasswordError | app/src/main/java/com/openclassrooms/rebonnte/ui/signup/SignUpViewModel.kt:86-90 | blank gives "Password cannot be empty", non-blank and under 6 UTF-16 code units (Kotlin's `length`) gives "Password must be at least 6 characters", and there is no error exactly when the password is non-blank with at least 6 code units |
| Validation.ThreeEmojiPasswordAccepted | app/src/main/java/com/openclassrooms/rebonnte/ui/signup/SignUpViewModel.kt:88 | three emoji, each outside the Basic Multilingual Plane, make a password of length 6 and pass the rule |
| Validation.NameError | app/src/main/java/com/openclassrooms/rebonnte/ui/signup/composables/NameLastnameInpit.kt:87 | "Name cannot be empty" exactly for a blank name |
| Validation.SurnameError | app/src/main/java/com/openclassrooms/rebonnte/ui/signup/composables/NameLastnameInpit.kt:88 | "Surname cannot be empty" exactly for a blank surname |
| Validation.MatchingEmailIsNotBlank | app/src/main/java/com/openclassrooms/rebonnte/ui/login/LoginViewModel.kt:66-68 | an address the pattern accepts is never blank, so the blank check is only about the message |
| Validation.SignUpPasswordRuleIsStricter | app/src/main/java/com/openclassrooms/rebonnte/ui/signup/SignUpViewModel.kt:86-90 | every password sign-up accepts is accepted by login; "abc" passes login and fails sign-up as too short |
| Validation.BlankBeatsLength | app/src/main/java/com/openclassrooms/rebonnte/ui/signup/SignUpViewModel.kt:87-88 | a blank password shorter than 6 characters is reported as empty, not as too short |
| EmailPattern.IsValidEmail | app/src/main/java/com/openclassrooms/rebonnte/ui/login/LoginViewModel.kt:68 | the executable check accepts an address exactly when it matches the pattern "local part @ domain . at least two top-level characters", read as an existential split |
| EmailPattern.IsValidEmailCorrect | app/src/main/java/com/openclassrooms/rebonnte/ui/login/LogInScreen.kt:221-224 | splitting at the first '@' and the last '.' decides the pattern: the decision equals the existential reading for both top-level classes |
| EmailPattern.StrictImpliesRelaxed | app/src/main/java/com/openclassrooms/rebonnte/ui/login/LogInScreen.kt:222 | every address the view-model's letters-only top-level pattern accepts is accepted by the screen's pattern, whose top-level class also admits a bar character |
| EmailPattern.AgreeWithoutBar | app/src/main/java/com/openclassrooms/rebonnte/ui/login/LogInScreen.kt:222 | the two patterns agree on every address that contains no bar character |
| EmailPattern.BarSeparatesPatterns | app/src/main/java/com/openclassrooms/rebonnte/ui/login/LogInScreen.kt:222 | "a@b.c" followed by a bar character is accepted by the screen's pattern and rejected by the view-model's |
| LoginTopAppBar.OnBackClick | app/src/main/java/com/openclassrooms/rebonnte/ui/login/composables/LoginTopAppBar.kt:28-34 | above step 1 the step goes down by one and nothing navigates; at step 1 or below the step stays and the bar navigates to the fallback route; it navigates exactly when the step is unchanged |
| LoginTopAppBar.ClickBackFloor | app/src/main/java/com/openclassrooms/rebonnte/ui/login/composables/LoginTopAppBar.kt:29-33 | any number of back clicks from a step of at least 1 ends at max(1, step - clicks), never below 1 |
| LoginViewModel.OnEmailChange | app/src/main/java/com/openclassrooms/rebonnte/ui/login/LoginViewModel.kt:76-78 | stores the e-mail and changes no other field or the event |
| LoginViewModel.OnPasswordChange | app/src/main/java/com/openclassrooms/rebonnte/ui/login/LoginViewModel.kt:80-82 | stores the password and changes no other field or the event |
| LoginViewModel.OnNextStep | app/src/main/java/com/openclassrooms/rebonnte/ui/login/LoginViewModel.kt:22-29 | a matching address moves to step 2 and clears the error; a non-matching one keeps the step and sets an error ("Email cannot be empty" when blank); nothing else changes |
| LoginViewModel.OnPreviousStep | app/src/main/java/com/openclassrooms/rebonnte/ui/login/LoginViewModel.kt:31-35 | decrements a step above 1 and leaves the state alone at step 1 or below |
| LoginViewModel.TogglePasswordVisibility | app/src/main/java/com/openclassrooms/rebonnte/ui/login/LoginViewModel.kt:37-39 | flips the visibility flag and nothing else |
| LoginViewModel.OnSignIn | app/src/main/java/com/openclassrooms/rebonnte/ui/login/LoginViewModel.kt:41-51 | a request with the current credentials is made exactly when the address matches and the password is not blank; otherwise both error fields are overwritten with the validators' results |
| LoginViewModel.OnSignInComplete | app/src/main/java/com/openclassrooms/rebonnte/ui/login/LoginViewModel.kt:55-60 | success sets the event to Navigate("aisle"), failure to ShowMessage("Authentication failed"); the UI state is untouched |
| LoginViewModel.RunKeepsStepInRange | app/src/main/java/com/openclassrooms/rebonnte/ui/login/LoginViewModel.kt:22-35 | every sequence of view-model actions keeps the step in {1, 2} |
| LoginViewModel.InitialStepInRange | app/src/main/java/com/openclassrooms/rebonnte/ui/login/LoginViewModel.kt:16-20 | the view-model starts at step 1 with no event |
| LoginViewModel.NextStepIdempotent | app/src/main/java/com/openclassrooms/rebonnte/ui/login/LoginViewModel.kt:22-29 | pressing "next" twice is pressing it once |
| LoginViewModel.ToggleTwiceIsIdentity | app/src/main/java/com/openclassrooms/rebonnte/ui/login/LoginViewModel.kt:37-39 | toggling visibility twice restores the state |
| LogInScreen.OnNext | app/src/main/java/com/openclassrooms/rebonnte/ui/login/LogInScreen.kt:56-59 | the screen's own check (the pattern whose top-level class admits a bar) clears the error and moves to step 2 exactly when the address matches; otherwise only the error changes |
| LogInScreen.OnSignIn | app/src/main/java/com/openclassrooms/rebonnte/ui/login/LogInScreen.kt:67-72 | the password error is always recomputed; the provider is called exactly when the stored e-mail error is empty and the password is not blank |
| LogInScreen.TogglePasswordVisibility | app/src/main/java/com/openclassrooms/rebonnte/ui/login/LogInScreen.kt:66 | flips the visibility flag and nothing else |
| LogInScreen.OnBack | app/src/main/java/com/openclassrooms/rebonnte/ui/login/LogInScreen.kt:87-93 | above step 1 the step goes down by one; at step 1 the screen navigates to "email_sign_in" |
| LogInScreen.SignInOutcome | app/src/main/java/com/openclassrooms/rebonnte/ui/login/LogInScreen.kt:207-219 | success gives exactly two effects, navigating to "aisle" with the back stack cleared and then the toast "Sign in successful"; failure only toasts "Authentication failed"; navigation happens exactly on success |
| LogInScreen.TwoStepsReachProvider | app/src/main/java/com/openclassrooms/rebonnte/ui/login/LogInScreen.kt:52-75 | from the initial screen, a matching address and a non-blank password reach the provider with exactly those credentials |
| LogInScreen.ScreenAcceptsViewModelEmails | app/src/main/java/com/openclassrooms/rebonnte/ui/login/LogInScreen.kt:195-201 | every address the login view-model accepts, the login screen accepts |
| SignUpViewModel.OnEmailChange | app/src/main/java/com/openclassrooms/rebonnte/ui/signup/SignUpViewModel.kt:37-39 | stores the e-mail and changes no other field or the event |
| SignUpViewModel.OnNameChange | app/src/main/java/com/openclassrooms/rebonnte/ui/signup/SignUpViewModel.kt:41-43 | stores the first name and changes no other field or the event |
| SignUpViewModel.OnLastnameChange | app/src/main/java/com/openclassrooms/rebonnte/ui/signup/SignUpViewModel.kt:45-47 | stores the last name and changes no other field or the event |
| SignUpViewModel.OnPasswordChange | app/src/main/java/com/openclassrooms/rebonnte/ui/signup/SignUpViewModel.kt:49-51 | stores the password and changes no other field or the event |
| SignUpViewModel.ValidateEmail | app/src/main/java/com/openclassrooms/rebonnte/ui/signup/SignUpViewModel.kt:53-67 | the account lookup is requested for the e-mail exactly when it is non-blank and accepted, and then only the loading flag is set; otherwise only the e-mail error is set |
| SignUpViewModel.OnLookupComplete | app/src/main/java/com/openclassrooms/rebonnte/ui/signup/SignUpViewModel.kt:68-81 | the loading flag clears; a known address (some sign-in method) goes to step 3, a new one to step 2, both clearing the error; a failed lookup keeps the step and stores "Error: <message>" |
| SignUpViewModel.ValidatePassword | app/src/main/java/com/openclassrooms/rebonnte/ui/signup/SignUpViewModel.kt:84-99 | account creation is requested with the e-mail and password exactly when the password is non-blank with at least 6 UTF-16 code units, setting the loading flag; otherwise only the password error is set |
| SignUpViewModel.OnCreateUserComplete | app/src/main/java/com/openclassrooms/rebonnte/ui/signup/SignUpViewModel.kt:99-117 | success with a current user writes users/<uid> with firstName and lastName; success without one does nothing further; failure falls back to signing in with the same credentials |
| SignUpViewModel.OnProfileSaved | app/src/main/java/com/openclassrooms/rebonnte/ui/signup/SignUpViewModel.kt:119-127 | the loading flag clears; a saved profile leaves the event at NavigateToAisle; a failed save shows "Failed to save user data: <message>" |
| SignUpViewModel.OnFallbackSignInComplete | app/src/main/java/com/openclassrooms/rebonnte/ui/signup/SignUpViewModel.kt:130-143 | the loading flag clears; success leaves the event at NavigateToAisle; failure stores "Error: <message>" as the password error and keeps the event |
| SignUpViewModel.GoToNextStep | app/src/main/java/com/openclassrooms/rebonnte/ui/signup/SignUpViewModel.kt:146-148 | the step becomes exactly one more, wrapping to the Int minimum at the Int maximum; nothing else changes |
| SignUpViewModel.GoToPreviousStep | app/src/main/java/com/openclassrooms/rebonnte/ui/signup/SignUpViewModel.kt:150-154 | a step above 1 becomes exactly one less; at step 1 or below nothing changes |
| SignUpViewModel.ClearEvent | app/src/main/java/com/openclassrooms/rebonnte/ui/signup/SignUpViewModel.kt:156-158 | empties the event slot and leaves the UI state |
| SignUpViewModel.PreviousUndoesNext | app/src/main/java/com/openclassrooms/rebonnte/ui/signup/SignUpViewModel.kt:146-154 | from any step of at least 1 below the Int maximum, next then previous restores the state |
| SignUpViewModel.NextAtMaximumIsNotUndone | app/src/main/java/com/openclassrooms/rebonnte/ui/signup/SignUpViewModel.kt:146-154 | at the Int maximum, next wraps to the Int minimum and previous leaves it there |
| SignUpViewModel.ErrorsLeaveLoadingAlone | app/src/main/java/com/openclassrooms/rebonnte/ui/signup/SignUpViewModel.kt:61-95 | a validation error on either step never touches the loading flag |
| SignUpViewModel.NoCurrentUserLeavesLoading | app/src/main/java/com/openclassrooms/rebonnte/ui/signup/SignUpViewModel.kt:97-110 | when the account is created but no user is current, nothing follows and the loading flag stays set |
| SignUpViewModel.HappyPath | app/src/main/java/com/openclassrooms/rebonnte/ui/signup/SignUpViewModel.kt:53-122 | a new address, a name, a six-character password, account creation and a saved profile end with the event NavigateToAisle and no loading flag |
| NameLastnameInput.OnNextClick | app/src/main/java/com/openclassrooms/rebonnte/ui/signup/composables/NameLastnameInpit.kt:86-89 | each field's error is set exactly when it is blank, both are evaluated on every click, and `onNext` is called exactly when both are filled |
| NameLastnameInput.BothErrorsAtOnce | app/src/main/java/com/openclassrooms/rebonnte/ui/signup/composables/NameLastnameInpit.kt:87-89 | an empty name and a blank surname produce both errors in one click and no `onNext` |
| PasswordInput.OnLoginClick | app/src/main/java/com/openclassrooms/rebonnte/ui/signup/composables/PasswordInput.kt:178-206 | the sign-up rule (length in UTF-16 code units) sets the error; `onLogin` is called exactly when there is no error, with the toast "Proceeding with login", otherwise "Password validation failed" |
| SignUpScreen.HandleEmailValidation | app/src/main/java/com/openclassrooms/rebonnte/ui/signup/SignUpScreen.kt:122-134 | the error is always overwritten with the sign-up e-mail check; the lookup is requested for the e-mail exactly when it is non-blank and accepted |
| SignUpScreen.OnLookupComplete | app/src/main/java/com/openclassrooms/rebonnte/ui/signup/SignUpScreen.kt:135-142 | a known address goes to step 3, a new one to step 2, leaving the stored error; a failed lookup only stores "Error: <message>" |
| SignUpScreen.OnNameNext | app/src/main/java/com/openclassrooms/rebonnte/ui/signup/SignUpScreen.kt:73 | the screen moves to step 3 exactly when both names are filled, and changes nothing else |
| SignUpScreen.ClickNameNext | app/src/main/java/com/openclassrooms/rebonnte/ui/signup/SignUpScreen.kt:68-74 | a click on step 2 reaches step 3 exactly when both names are filled (or it was already there), and changes nothing but the step |
| SignUpScreen.HandlePasswordValidation | app/src/main/java/com/openclassrooms/rebonnte/ui/signup/SignUpScreen.kt:146-162 | the password error is always overwritten; account creation is requested exactly when the password is non-blank with at least 6 UTF-16 code units |
| SignUpScreen.ClickSave | app/src/main/java/com/openclassrooms/rebonnte/ui/signup/SignUpScreen.kt:75-79 | when the password input's own check fails, the screen is unchanged and nothing is requested; otherwise the screen's password error clears and account creation is requested with the e-mail and password |
| SignUpScreen.ClickSaveAgreesWithViewModel | app/src/main/java/com/openclassrooms/rebonnte/ui/signup/SignUpScreen.kt:146-162 | for the same e-mail and password, the screen's save click and the view-model's password step request the same account creation, or both none |
| SignUpScreen.OnCreateUserComplete | app/src/main/java/com/openclassrooms/rebonnte/ui/signup/SignUpScreen.kt:161-185 | success with a current user writes users/<uid>, success without one does nothing, failure signs in with the same credentials |
| SignUpScreen.OnProfileSaved | app/src/main/java/com/openclassrooms/rebonnte/ui/signup/SignUpScreen.kt:186-191 | `onLoginSuccess` runs exactly on a saved profile, and a success gives exactly `onLoginSuccess` followed by the toast "Login Successful"; a failure only toasts "Failed to save user details: <message>" |
| SignUpScreen.OnFallbackSignInComplete | app/src/main/java/com/openclassrooms/rebonnte/ui/signup/SignUpScreen.kt:202-210 | `onLoginSuccess` runs exactly on success, and a success keeps the screen and gives exactly `onLoginSuccess` followed by the toast "Login Successful"; a failure stores "Error: <message>" as the password error |
| SignUpScreen.OnBack | app/src/main/java/com/openclassrooms/rebonnte/ui/signup/SignUpScreen.kt:96-101 | above step 1 the step goes down by one; at step 1 the screen navigates to "sign_in" |
| SignInViewModel.Init | app/src/main/java/com/openclassrooms/rebonnte/ui/signin/SignInViewModel.kt:21-26 | the federated session wins over the e-mail session; either marks the state signed in with that user; with neither the state is the default |
| SignInViewModel.OnSignInResult | app/src/main/java/com/openclassrooms/rebonnte/ui/signin/SignInViewModel.kt:28-36 | the state reports success exactly when the result has a user, and takes the result's user and error as they are |
| SignInViewModel.ResetState | app/src/main/java/com/openclassrooms/rebonnte/ui/signin/SignInViewModel.kt:38-40 | any state resets to not signed in, no error, no user |
| SignInViewModel.GetUserData | app/src/main/java/com/openclassrooms/rebonnte/ui/signin/SignInViewModel.kt:42 | returns the state's user |
| SignInViewModel.OnSignInSuccess | app/src/main/java/com/openclassrooms/rebonnte/ui/signin/SignInViewModel.kt:44-46 | records the user and success, and keeps any earlier error |
| SignInViewModel.SignInResultForgetsState | app/src/main/java/com/openclassrooms/rebonnte/ui/signin/SignInViewModel.kt:28-36 | a result leaves the same state whatever state it lands on |
| SignInViewModel.EmailSignInReachesState | app/src/main/java/com/openclassrooms/rebonnte/utils/EmailAuthClient.kt:10-35 | after an e-mail sign-in the state reports success exactly when the provider authenticated a user, and then carries no error and the typed e-mail |
| EmailAuthClient.SignInErrorMessage | app/src/main/java/com/openclassrooms/rebonnte/utils/EmailAuthClient.kt:28-32 | "User not found" exactly for ERROR_USER_NOT_FOUND, "Wrong password" exactly for ERROR_WRONG_PASSWORD, "Sign in failed: <message>" for every other code |
| EmailAuthClient.CreateUserErrorMessage | app/src/main/java/com/openclassrooms/rebonnte/utils/EmailAuthClient.kt:55-60 | "Email already in use", "Weak password", "Invalid email" exactly for their three codes, "Sign up failed: <message>" for every other code |
| EmailAuthClient.SignIn | app/src/main/java/com/openclassrooms/rebonnte/utils/EmailAuthClient.kt:10-35 | only non-auth exceptions escape; a result has a user exactly when the provider returned one (uid, display name or "", the typed e-mail, the photo URL twice) and an error exactly on an auth exception |
| EmailAuthClient.CreateUser | app/src/main/java/com/openclassrooms/rebonnte/utils/EmailAuthClient.kt:37-63 | as sign-in, but the user name is the typed e-mail and there is no profile picture |
| EmailAuthClient.GetSignedInUser | app/src/main/java/com/openclassrooms/rebonnte/utils/EmailAuthClient.kt:69-79 | a user exactly when a session with an e-mail exists; its name falls back from the display name to the e-mail |
| EmailAuthClient.NeverBoth | app/src/main/java/com/openclassrooms/rebonnte/utils/EmailAuthClient.kt:13-33 | a returned result never carries both a user and an error |
| EmailAuthClient.NullUserGivesNeither | app/src/main/java/com/openclassrooms/rebonnte/utils/EmailAuthClient.kt:14-23 | a successful call whose user is null returns neither a user nor an error |
| RecoveryViewModel.OnEmailChange | app/src/main/java/com/openclassrooms/rebonnte/ui/recovery/RecoveryViewModel.kt:26-29 | stores the e-mail and clears its error |
| RecoveryViewModel.SendResetEmail | app/src/main/java/com/openclassrooms/rebonnte/ui/recovery/RecoveryViewModel.kt:31-41 | the reset is sent exactly when the e-mail is not blank, to the trimmed address (no whitespace at either end), setting the loading flag; a blank one only sets "Email cannot be empty" |
| RecoveryViewModel.ResetFailureMessage | app/src/main/java/com/openclassrooms/rebonnte/ui/recovery/RecoveryViewModel.kt:47-52 | "No account found with this email address." exactly when the message (or "Unknown error") contains "no user record" in any case, otherwise "Failed to send reset email: <message>" |
| RecoveryViewModel.OnResetComplete | app/src/main/java/com/openclassrooms/rebonnte/ui/recovery/RecoveryViewModel.kt:42-54 | the loading flag always clears; success raises the dialog flag, failure stores the failure message |
| RecoveryViewModel.ResetDialog | app/src/main/java/com/openclassrooms/rebonnte/ui/recovery/RecoveryViewModel.kt:58-60 | lowers the dialog flag and nothing else |
| RecoveryViewModel.NullMessageIsUnknownError | app/src/main/java/com/openclassrooms/rebonnte/ui/recovery/RecoveryViewModel.kt:47 | a failure without a message reads "Failed to send reset email: Unknown error" |
| RecoveryViewModel.MarkerIgnoresCase | app/src/main/java/com/openclassrooms/rebonnte/ui/recovery/RecoveryViewModel.kt:49 | an upper-case "NO USER RECORD" is recognised as the missing-account case |
| RecoveryScreen.OnEmailChange | app/src/main/java/com/openclassrooms/rebonnte/ui/login/RecoveryScreen.kt:139 | stores the e-mail and keeps the error |
| RecoveryScreen.OnSendClick | app/src/main/java/com/openclassrooms/rebonnte/ui/login/RecoveryScreen.kt:172-176 | a blank e-mail sets "Email cannot be empty" and sends nothing; otherwise the error clears and the e-mail is sent exactly as typed |
| RecoveryScreen.FailureMessage | app/src/main/java/com/openclassrooms/rebonnte/ui/login/RecoveryScreen.kt:218-222 | "No account found with this email address." exactly when there is a message containing "no user record" in any case, otherwise "Failed to send reset email. Error: <message>" with null shown as "null" |
| RecoveryScreen.OnResetComplete | app/src/main/java/com/openclassrooms/rebonnte/ui/login/RecoveryScreen.kt:213-226 | the dialog shows exactly on success; a failure sets the error only when it carries an exception |
| RecoveryScreen.OnDismissDialog | app/src/main/java/com/openclassrooms/rebonnte/ui/login/RecoveryScreen.kt:70-73 | hides the dialog and navigates up |
| RecoveryScreen.ScreenDoesNotTrim | app/src/main/java/com/openclassrooms/rebonnte/ui/login/RecoveryScreen.kt:172-176 | for a non-blank e-mail with leading whitespace, the screen and the recovery view-model send different addresses |
| RecoveryScreen.WordingDiffers | app/src/main/java/com/openclassrooms/rebonnte/ui/login/RecoveryScreen.kt:221 | for a message without the marker, the screen and the view-model word the error differently |
| Firestore.RemoveCurrent | app/src/main/java/com/openclassrooms/rebonnte/repository/MedecineRepository.kt:43 | the held listener stops receiving events, no other listener is affected, and the held handle stays in the field |
| Firestore.Install | app/src/main/java/com/openclassrooms/rebonnte/repository/MedecineRepository.kt:45 | a fresh handle, not live before, becomes live and is held |
| Firestore.Reinstall | app/src/main/java/com/openclassrooms/rebonnte/repository/MedecineRepository.kt:43-45 | after removing then installing, exactly the held listener is live |
| Firestore.Clear | app/src/main/java/com/openclassrooms/rebonnte/repository/MedecineRepository.kt:159-162 | no handle is held and, in a valid registry, no listener is live |
| Firestore.AtMostOneLive | app/src/main/java/com/openclassrooms/rebonnte/repository/MedecineRepository.kt:42-45 | in a valid registry at most one listener delivers |
| Firestore.ClearIdempotent | app/src/main/java/com/openclassrooms/rebonnte/repository/MedecineRepository.kt:159-162 | clearing twice equals clearing once |
| Firestore.InstallWithoutRemoveDoubles | app/src/main/java/com/openclassrooms/rebonnte/repository/AisleRepository.kt:47-49 | installing over a live listener without removing it leaves two listeners delivering |
| Firestore.Apply | app/src/main/java/com/openclassrooms/rebonnte/repository/MedecineRepository.kt:92-94 | a set stores the document under its key, a delete removes that key, and every other key is untouched |
| Firestore.Bodies | app/src/main/java/com/openclassrooms/rebonnte/repository/AisleRepository.kt:55-57 | the bodies that decode, each taken from some document, and every decodable body kept |
| Firestore.BodiesAppend | app/src/main/java/com/openclassrooms/rebonnte/repository/AisleRepository.kt:55-57 | decoding keeps document order: it distributes over concatenation |
| MedicineRepository.Observe | app/src/main/java/com/openclassrooms/rebonnte/repository/MedecineRepository.kt:39-60 | re-observing keeps both lists, records the query, and leaves exactly the new listener live |
| MedicineRepository.Init | app/src/main/java/com/openclassrooms/rebonnte/repository/MedecineRepository.kt:26-33 | the repository starts with empty lists and one live listener on the whole collection |
| MedicineRepository.Decode | app/src/main/java/com/openclassrooms/rebonnte/repository/MedecineRepository.kt:51-53 | every decoded medicine is some document's body with the document key as id; when every document decodes, the i-th medicine is the i-th document's body with its key |
| MedicineRepository.DecodeAppend | app/src/main/java/com/openclassrooms/rebonnte/repository/MedecineRepository.kt:51-53 | decoding keeps document order: it distributes over concatenation |
| MedicineRepository.OnListenerEvent | app/src/main/java/com/openclassrooms/rebonnte/repository/MedecineRepository.kt:45-59 | a removed listener, an error or a null snapshot changes nothing; a snapshot replaces both the published list and the snapshot buffer with the decoded documents |
| MedicineRepository.AddNewMedicine | app/src/main/java/com/openclassrooms/rebonnte/repository/MedecineRepository.kt:65-73 | the medicine with the fresh key as id is appended to the published list only, and written under that key |
| MedicineRepository.WithoutId | app/src/main/java/com/openclassrooms/rebonnte/repository/MedecineRepository.kt:79 | exactly the entries with another id remain |
| MedicineRepository.WithoutIdAppend | app/src/main/java/com/openclassrooms/rebonnte/repository/MedecineRepository.kt:79 | the removal keeps the order of the rest: it distributes over concatenation |
| MedicineRepository.WithoutAbsentId | app/src/main/java/com/openclassrooms/rebonnte/repository/MedecineRepository.kt:79 | removing an id no entry has changes nothing |
| MedicineRepository.OnAddFailure | app/src/main/java/com/openclassrooms/rebonnte/repository/MedecineRepository.kt:77-80 | a failed add removes every published entry with that id and leaves the snapshot buffer |
| MedicineRepository.RollbackUndoesAdd | app/src/main/java/com/openclassrooms/rebonnte/repository/MedecineRepository.kt:65-80 | an add under a key no published entry has, followed by its failure, restores the repository |
| MedicineRepository.UpdateMedicine | app/src/main/java/com/openclassrooms/rebonnte/repository/MedecineRepository.kt:86-94 | no write exactly for an empty id; otherwise an overwrite of the document under the medicine's id |
| MedicineRepository.UpdateWritesOwnKey | app/src/main/java/com/openclassrooms/rebonnte/repository/MedecineRepository.kt:86-94 | after an update the store holds the medicine under its id and no other key changes; an empty id leaves the store alone |
| MedicineRepository.DeleteMedicine | app/src/main/java/com/openclassrooms/rebonnte/repository/MedecineRepository.kt:106-109 | a delete of the document under the given id |
| MedicineRepository.NameFilter | app/src/main/java/com/openclassrooms/rebonnte/repository/MedecineRepository.kt:125-127 | exactly the entries whose name contains the query, ignoring case |
| MedicineRepository.NameFilterAppend | app/src/main/java/com/openclassrooms/rebonnte/repository/MedecineRepository.kt:125-127 | the filter distributes over concatenation |
| MedicineRepository.NameFilterCons | app/src/main/java/com/openclassrooms/rebonnte/repository/MedecineRepository.kt:125-127 | a matching entry heads the filter of a list it heads |
| MedicineRepository.NameFilterKeepsOrder | app/src/main/java/com/openclassrooms/rebonnte/repository/MedecineRepository.kt:125-127 | two matching entries keep their relative order in the filter |
| MedicineRepository.FilterByName | app/src/main/java/com/openclassrooms/rebonnte/repository/MedecineRepository.kt:121-129 | a blank query publishes the whole snapshot buffer, any other publishes its filter; the buffer, listener and query are untouched |
| MedicineRepository.LastFilterWins | app/src/main/java/com/openclassrooms/rebonnte/repository/MedecineRepository.kt:121-129 | a second filter forgets the first |
| MedicineRepository.FilterHidesOptimisticEntries | app/src/main/java/com/openclassrooms/rebonnte/repository/MedecineRepository.kt:70 | an optimistic entry not yet in a snapshot disappears under any filter |
| MedicineRepository.SortByName | app/src/main/java/com/openclassrooms/rebonnte/repository/MedecineRepository.kt:134-138 | re-observes the collection ordered by "name", keeping the lists and one live listener |
| MedicineRepository.SortByStock | app/src/main/java/com/openclassrooms/rebonnte/repository/MedecineRepository.kt:143-147 | re-observes the collection ordered by "stock", keeping the lists and one live listener |
| MedicineRepository.SortByNone | app/src/main/java/com/openclassrooms/rebonnte/repository/MedecineRepository.kt:152-154 | re-observes the plain collection, keeping the lists and one live listener |
| MedicineRepository.ReobserveSilencesOldListener | app/src/main/java/com/openclassrooms/rebonnte/repository/MedecineRepository.kt:43 | after a re-observe, events for the replaced listener change nothing |
| MedicineRepository.ClearListener | app/src/main/java/com/openclassrooms/rebonnte/repository/MedecineRepository.kt:159-162 | no listener is held or live afterwards, and the lists stay |
| MedicineRepository.ClearListenerIdempotent | app/src/main/java/com/openclassrooms/rebonnte/repository/MedecineRepository.kt:159-162 | clearing twice equals clearing once |
| MedicineRepository.ClearedRepoIgnoresEvents | app/src/main/java/com/openclassrooms/rebonnte/repository/MedecineRepository.kt:159-162 | after clearing, no listener event changes the repository |
| MedicineViewModel.AddingUserEmail | app/src/main/java/com/openclassrooms/rebonnte/ui/medicine/MedicineViewModel.kt:54 | the current user's e-mail, or "anonymous" |
| MedicineViewModel.AddNewMedicine | app/src/main/java/com/openclassrooms/rebonnte/ui/medicine/MedicineViewModel.kt:53-57 | exactly one entry is appended: the medicine with the adding user's e-mail and the fresh key, written under that key |
| MedicineViewModel.RandomMedicine | app/src/main/java/com/openclassrooms/rebonnte/ui/medicine/MedicineViewModel.kt:33-44 | no medicine for an empty aisle list; otherwise its aisle is a listed aisle's name, stock in [0, 100), no history, the adding user's e-mail, and a name "Medicine <n>" whose number parses back to the draw |
| MedicineViewModel.NumberRoundTrip | app/src/main/java/com/openclassrooms/rebonnte/ui/medicine/MedicineViewModel.kt:39 | a drawn number below 1000, written in decimal as in a random medicine's name, parses back to the number |
| MedicineViewModel.AddRandomMedicine | app/src/main/java/com/openclassrooms/rebonnte/ui/medicine/MedicineViewModel.kt:33-47 | an empty aisle list makes no repository call; otherwise exactly one add of the random medicine |
| MedicineViewModel.FindById | app/src/main/java/com/openclassrooms/rebonnte/ui/medicine/MedicineViewModel.kt:64 | the index of the first medicine with that id, or none when no medicine has it |
| MedicineViewModel.GetAisleForMedicine | app/src/main/java/com/openclassrooms/rebonnte/ui/medicine/MedicineViewModel.kt:63-66 | an aisle named after the first medicine with that id, or "Unknown" |
| MedicineViewModel.UpdateMedicine | app/src/main/java/com/openclassrooms/rebonnte/ui/medicine/MedicineViewModel.kt:71-73 | forwards the same medicine to the repository's update |
| MedicineViewModel.DeleteMedicine | app/src/main/java/com/openclassrooms/rebonnte/ui/medicine/MedicineViewModel.kt:78-80 | forwards the same id to the repository's delete |
| MedicineViewModel.FilterByName | app/src/main/java/com/openclassrooms/rebonnte/ui/medicine/MedicineViewModel.kt:86-88 | forwards the same query to the repository's filter |
| MedicineViewModel.SortByName | app/src/main/java/com/openclassrooms/rebonnte/ui/medicine/MedicineViewModel.kt:93-95 | forwards to the repository's sort by name |
| MedicineViewModel.SortByStock | app/src/main/java/com/openclassrooms/rebonnte/ui/medicine/MedicineViewModel.kt:100-102 | forwards to the repository's sort by stock |
| MedicineViewModel.SortByNone | app/src/main/java/com/openclassrooms/rebonnte/ui/medicine/MedicineViewModel.kt:107-109 | forwards to the repository's plain re-observe |
| MedicineViewModel.ReloadMedicines | app/src/main/java/com/openclassrooms/rebonnte/ui/medicine/MedicineViewModel.kt:114-116 | reloading is the plain re-observe |
| MedicineViewModel.OnCleared | app/src/main/java/com/openclassrooms/rebonnte/ui/medicine/MedicineViewModel.kt:122-128 | the launched block detaches the repository's listener: none is held or live afterwards |
| AisleRepository.LoadAisles | app/src/main/java/com/openclassrooms/rebonnte/repository/AisleRepository.kt:35-36 | the held listener stops receiving events before anything else; the list stays |
| AisleRepository.DefaultAisle | app/src/main/java/com/openclassrooms/rebonnte/repository/AisleRepository.kt:43 | the seed aisle is named "Aisle 1" |
| AisleRepository.OnInitialRead | app/src/main/java/com/openclassrooms/rebonnte/repository/AisleRepository.kt:41-49 | a failed read does nothing; a successful one writes one "Aisle 1" exactly when the collection was empty and then installs a listener, without removing any other |
| AisleRepository.Init | app/src/main/java/com/openclassrooms/rebonnte/repository/AisleRepository.kt:25-27 | the repository starts with an empty list and no live listener until the first read completes |
| AisleRepository.SeedsEmptyCollection | app/src/main/java/com/openclassrooms/rebonnte/repository/AisleRepository.kt:42-45 | after a successful read of an empty collection, the collection holds exactly one aisle, named "Aisle 1" |
| AisleRepository.OnListenerEvent | app/src/main/java/com/openclassrooms/rebonnte/repository/AisleRepository.kt:49-60 | a removed listener or an error changes nothing; a snapshot replaces the list with the decoded bodies; a null snapshot empties it |
| AisleRepository.SnapshotKeepsStoredIds | app/src/main/java/com/openclassrooms/rebonnte/repository/AisleRepository.kt:55-57 | an aisle keeps its stored id whatever key it is stored under |
| AisleRepository.AddAisle | app/src/main/java/com/openclassrooms/rebonnte/repository/AisleRepository.kt:68-71 | a set of the aisle under its own id |
| AisleRepository.DeleteAisle | app/src/main/java/com/openclassrooms/rebonnte/repository/AisleRepository.kt:84-87 | a delete of the document under the aisle's id |
| AisleRepository.DeleteUndoesAdd | app/src/main/java/com/openclassrooms/rebonnte/repository/AisleRepository.kt:68-94 | adding then deleting an aisle leaves the collection without its key and every other document as it was |
| AisleRepository.ClearListener | app/src/main/java/com/openclassrooms/rebonnte/repository/AisleRepository.kt:100-104 | no listener is held or live afterwards, and the list stays |
| AisleRepository.ClearListenerIdempotent | app/src/main/java/com/openclassrooms/rebonnte/repository/AisleRepository.kt:100-104 | clearing twice equals clearing once |
| AisleRepository.SequentialReloadKeepsOneListener | app/src/main/java/com/openclassrooms/rebonnte/repository/AisleRepository.kt:35-49 | a reload whose read completes before the next reload keeps at most one live listener |
| AisleRepository.OverlappingReloadsLeaveTwoListeners | app/src/main/java/com/openclassrooms/rebonnte/repository/AisleRepository.kt:35-49 | two reloads whose reads both complete afterwards leave two live listeners |
| AisleViewModel.AisleName | app/src/main/java/com/openclassrooms/rebonnte/ui/aisle/AisleViewModel.kt:30 | "Aisle " followed by the count in decimal, which parses back to the count |
| AisleViewModel.CountRoundTrip | app/src/main/java/com/openclassrooms/rebonnte/ui/aisle/AisleViewModel.kt:30 | a count up to the Int maximum, written in decimal as in an aisle's name, parses back to the count |
| AisleViewModel.AddRandomAisle | app/src/main/java/com/openclassrooms/rebonnte/ui/aisle/AisleViewModel.kt:28-32 | one set of an aisle named after the current count plus one, under its fresh id |
| AisleViewModel.NameCanRepeatAfterDelete | app/src/main/java/com/openclassrooms/rebonnte/ui/aisle/AisleViewModel.kt:30 | with "Aisle 1" and "Aisle 2" present the next name is new, but once "Aisle 1" is deleted the next aisle is named "Aisle 2" again |
| AisleViewModel.NamesDifferForDifferentCounts | app/src/main/java/com/openclassrooms/rebonnte/ui/aisle/AisleViewModel.kt:30 | different counts give different names |
| AisleViewModel.ReloadAisles | app/src/main/java/com/openclassrooms/rebonnte/ui/aisle/AisleViewModel.kt:38-40 | reloading is the repository's load |
| AisleViewModel.DeleteAisle | app/src/main/java/com/openclassrooms/rebonnte/ui/aisle/AisleViewModel.kt:45-47 | forwards the same aisle to the repository's delete, keyed by its id |
| AisleViewModel.OnCleared | app/src/main/java/com/openclassrooms/rebonnte/ui/aisle/AisleViewModel.kt:53-59 | the launched block detaches the repository's listener: none is held or live afterwards |
| MedicineDetailScreen.FindByName | app/src/main/java/com/openclassrooms/rebonnte/ui/medicine/MedicineDetailScreen.kt:33 | the index of the first medicine with that name, or none when no medicine has it |
| MedicineDetailScreen.Render | app/src/main/java/com/openclassrooms/rebonnte/ui/medicine/MedicineDetailScreen.kt:49-85 | "Unknown" leaves the screen; otherwise the first medicine with that name is shown, or the loading text exactly when there is none |
| MedicineDetailScreen.HistoryUser | app/src/main/java/com/openclassrooms/rebonnte/ui/medicine/MedicineDetailScreen.kt:37 | the current user's e-mail, or "Unknown" |
| MedicineDetailScreen.Decrement | app/src/main/java/com/openclassrooms/rebonnte/ui/medicine/MedicineDetailScreen.kt:119-129 | an update exactly when the stock is positive: the stock drops by one and exactly one "Decreased stock" entry (name, user, date) is appended; otherwise the toast "Stock cannot go below 0" |
| MedicineDetailScreen.Increment | app/src/main/java/com/openclassrooms/rebonnte/ui/medicine/MedicineDetailScreen.kt:149-155 | always one update: the stock rises by one as a 32-bit Int (wrapping at the maximum) and exactly one "Increased stock" entry is appended; other fields are unchanged |
| MedicineDetailScreen.ManualEdit | app/src/main/java/com/openclassrooms/rebonnte/ui/medicine/MedicineDetailScreen.kt:138-141 | a text that parses as an Int becomes the stock, anything else keeps the medicine; no history is written |
| MedicineDetailScreen.ButtonsKeepStockNonNegative | app/src/main/java/com/openclassrooms/rebonnte/ui/medicine/MedicineDetailScreen.kt:119-155 | below the Int maximum, the buttons never take a non-negative stock below zero |
| MedicineDetailScreen.IncrementThenDecrement | app/src/main/java/com/openclassrooms/rebonnte/ui/medicine/MedicineDetailScreen.kt:119-155 | increment then decrement restores the stock and appends the two entries in order |
| MedicineDetailScreen.ManualEditRoundTrip | app/src/main/java/com/openclassrooms/rebonnte/ui/medicine/MedicineDetailScreen.kt:137-139 | typing the decimal form of any Int sets exactly that stock |
| MedicineDetailScreen.ManualEditAcceptsNegative | app/src/main/java/com/openclassrooms/rebonnte/ui/medicine/MedicineDetailScreen.kt:139 | the field accepts a negative stock |
| AddNewMedicineScreen.OnNameChange | app/src/main/java/com/openclassrooms/rebonnte/ui/medicine/AddNewMedicineScreen.kt:85 | stores the name and nothing else |
| AddNewMedicineScreen.OnStockChange | app/src/main/java/com/openclassrooms/rebonnte/ui/medicine/AddNewMedicineScreen.kt:96 | the edit is taken exactly when every character is a digit (the empty text included); otherwise the form is unchanged |
| AddNewMedicineScreen.ApplyStockEdits | app/src/main/java/com/openclassrooms/rebonnte/ui/medicine/AddNewMedicineScreen.kt:96 | any run of edits keeps a digits-only field digits-only |
| AddNewMedicineScreen.MenuItems | app/src/main/java/com/openclassrooms/rebonnte/ui/medicine/AddNewMedicineScreen.kt:132-151 | an empty aisle list offers only the inert "No aisles available"; otherwise one entry per aisle, in order, selecting that aisle's name |
| AddNewMedicineScreen.OnMenuClick | app/src/main/java/com/openclassrooms/rebonnte/ui/medicine/AddNewMedicineScreen.kt:133-145 | the placeholder does nothing; an aisle entry selects its name and closes the menu |
| AddNewMedicineScreen.SelectionComesFromAisles | app/src/main/java/com/openclassrooms/rebonnte/ui/medicine/AddNewMedicineScreen.kt:132-151 | a menu click leaves the selection unchanged or sets it to the name of a listed aisle; with no aisle nothing changes |
| AddNewMedicineScreen.Submit | app/src/main/java/com/openclassrooms/rebonnte/ui/medicine/AddNewMedicineScreen.kt:157-173 | a blank field shows "Please fill all fields"; otherwise `toInt` throws exactly when the stock does not fit an Int, and on success one medicine (name, parsed stock, selected aisle, other fields default) is added with "Medicine added" |
| AddNewMedicineScreen.LongStockThrows | app/src/main/java/com/openclassrooms/rebonnte/ui/medicine/AddNewMedicineScreen.kt:96-165 | a digit string above the Int maximum passes the stock filter and makes the submit throw |
| AddNewMedicineScreen.TenNinesThrows | app/src/main/java/com/openclassrooms/rebonnte/ui/medicine/AddNewMedicineScreen.kt:96-165 | the concrete stock "9999999999" with a name and an aisle is kept by the field, throws on submit, and is refused with "Stock is too large" by the corrected submit |
| AddNewMedicineScreen.ShortStockNeverThrows | app/src/main/java/com/openclassrooms/rebonnte/ui/medicine/AddNewMedicineScreen.kt:96-165 | a stock of at most nine digits never makes the submit throw |
| AddNewMedicineScreen.SubmitChecked | app/src/main/java/com/openclassrooms/rebonnte/ui/medicine/AddNewMedicineScreen.kt:157-173 | never throws; refuses exactly the blank forms and the stocks that do not fit, the latter with "Stock is too large"; otherwise agrees with the submit as written |
| AisleDetailScreen.InAisle | app/src/main/java/com/openclassrooms/rebonnte/ui/aisle/AisleDetailScreen.kt:32 | exactly the medicines whose aisle name equals the given name |
| AisleDetailScreen.InAisleAppend | app/src/main/java/com/openclassrooms/rebonnte/ui/aisle/AisleDetailScreen.kt:32 | the per-aisle filter keeps list order: it distributes over concatenation |
| AisleDetailScreen.InAisleCons | app/src/main/java/com/openclassrooms/rebonnte/ui/aisle/AisleDetailScreen.kt:32 | a medicine of the aisle heads the aisle's list of any list it heads |
| AisleDetailScreen.InAisleKeepsOrder | app/src/main/java/com/openclassrooms/rebonnte/ui/aisle/AisleDetailScreen.kt:32 | two medicines of the aisle keep their relative order in the aisle's list |
| AisleDetailScreen.Render | app/src/main/java/com/openclassrooms/rebonnte/ui/aisle/AisleDetailScreen.kt:34-72 | "Unknown" pops back; otherwise "No medicines in this aisle" exactly when none is shelved there, else the aisle's medicines |
| AisleDetailScreen.OnMedicineClick | app/src/main/java/com/openclassrooms/rebonnte/ui/aisle/AisleDetailScreen.kt:67-69 | the route is "medicine_detail/" followed by the medicine's name |
| AisleDetailScreen.DetailMayShowAnotherAisle | app/src/main/java/com/openclassrooms/rebonnte/ui/aisle/AisleDetailScreen.kt:67-69 | two medicines of one name in different aisles: the aisle lists the second, and its detail route opens the first |
| Text.Trim | app/src/main/java/com/openclassrooms/rebonnte/ui/recovery/RecoveryViewModel.kt:32 | only whitespace is cut, from both ends; the result has no whitespace at either end and is empty exactly for a blank text |
| Text.ContainsIgnoreCaseAtSomeIndex | app/src/main/java/com/openclassrooms/rebonnte/ui/recovery/RecoveryViewModel.kt:49 | "contains, ignoring case" holds exactly when some window of the text equals the pattern up to case |
| Text.TrimPreservesBlank | app/src/main/java/com/openclassrooms/rebonnte/ui/recovery/RecoveryViewModel.kt:32-34 | trimming never changes whether a text is blank |
| Text.Utf16Length | app/src/main/java/com/openclassrooms/rebonnte/ui/signup/composables/PasswordInput.kt:203 | a string's `length` counts UTF-16 code units: between one and two per character, exactly one each when all are in the Basic Multilingual Plane and two each when none is |
| Decimal.Wrap | app/src/main/java/com/openclassrooms/rebonnte/ui/medicine/MedicineDetailScreen.kt:150 | Int addition wraps: the result is in range, equals the value when it fits, and differs by a multiple of 2^32 |
| Decimal.ParseInt | app/src/main/java/com/openclassrooms/rebonnte/ui/medicine/MedicineDetailScreen.kt:139 | an optional sign followed by at least one digit parses, and nothing else does; a digit string or a '+' sign gives the digits' value and fails exactly above the Int maximum; a '-' sign gives the negated value and fails exactly below the Int minimum |
| Decimal.ParseIntSamples | app/src/main/java/com/openclassrooms/rebonnte/ui/medicine/MedicineDetailScreen.kt:139 | "-5" and "+5" parse to -5 and 5; the empty text, a lone sign and "1a" do not parse |
| Decimal.ParseIntToString | app/src/main/java/com/openclassrooms/rebonnte/ui/medicine/MedicineDetailScreen.kt:137-139 | every Int's decimal form parses back to it |
| Decimal.ShortDigitsParse | app/src/main/java/com/openclassrooms/rebonnte/ui/medicine/AddNewMedicineScreen.kt:165 | a non-empty string of at most nine digits always parses |
| Models.UserProfile | app/src/main/java/com/openclassrooms/rebonnte/ui/signup/SignUpViewModel.kt:110-118 | the profile write targets users/<uid> with exactly the keys firstName and lastName holding the names |

## Left out

- Compose rendering, layout, accessibility labels and navigation plumbing: only the state each screen keeps and the effects it triggers (routes, toasts, snackbars, callbacks) are modelled.
- Network and threading: Firebase Auth and Firestore calls are split into a request value and a completion function whose outcome is a parameter; callbacks are assumed to run one at a time.
- Stale callbacks in general: a completion that lands after the screen or view-model is gone is not modelled, except for the overlapping aisle reloads stated above.
- Store-side ordering: `orderBy("name")`, `orderBy("stock")` and `orderBy("timestamp")` are recorded as the query only. Snapshots arrive in whatever order the store chose, and the model keeps that order.
- Document decoding (`toObject`): it is a parameter of each snapshot document, which is either a decoded body or nothing.
- `Patterns.EMAIL_ADDRESS`: the platform matcher is a `string -> bool` parameter, because its regular expression is platform code.
- Unicode: whitespace, digits and case folding are ASCII only. Kotlin's `isWhitespace`, `isDigit` and `lowercase` also accept other scripts. String lengths in the password rule are counted in UTF-16 code units, as Kotlin counts them (`Text.Utf16Length`).
- `Date().toString()`, `Random().nextInt`, `List.random()` and `document()` ids: the current date text, the draws and the fresh ids are parameters.
- Log lines (`println`) have no observable effect in the model.
- Google sign-in (`GoogleAuthClient`) and `AisleWorker` are outside the modelled core.
- `clearSession` in the e-mail auth client only calls the provider's sign-out; the provider's session is not state of this model.
- Read failure of the aisle repository's initial `get()`: the source registers no failure callback, so `AisleRepository.OnInitialRead` with a failed read changes nothing.
- MedicineViewModel.OnCleared: the model detaches the listener, as the launched block does and as a direct call of `onCleared` (the view-model tests make one) observes. When the framework clears a view-model it cancels `viewModelScope` before calling `onCleared`, so in the running app the launched block is not expected to run and the listener stays registered; coroutine scheduling is not modelled.
- AisleViewModel.OnCleared: the same as MedicineViewModel.OnCleared: the model detaches the listener, while in the running app the launched block on the cancelled scope is not expected to run.
- MedicineViewModel.UpdateMedicine: its contract only states that it forwards to the repository, whose member carries the properties.
- MedicineViewModel.DeleteMedicine: its contract only states that it forwards to the repository, whose member carries the properties.
- MedicineViewModel.FilterByName: its contract only states that it forwards to the repository, whose member carries the properties.
- MedicineViewModel.SortByName: its contract only states that it forwards to the repository, whose member carries the properties.
- MedicineViewModel.SortByStock: its contract only states that it forwards to the repository, whose member carries the properties.
- MedicineViewModel.SortByNone: its contract only states that it forwards to the repository, whose member carries the properties.
- AisleViewModel.ReloadAisles: its contract only states that it forwards to the repository, whose member carries the properties.
- AisleViewModel.DeleteAisle: its contract only states that it forwards to the repository, whose member carries the properties.
- Firestore.Apply: the store is a map from document key to body; field-level merges, timestamps and security rules are not modelled.

## Findings

| source | as written | input that shows it | evidently intended | confidence | as-written member | corrected member |
|---|---|---|---|---|---|---|
| app/src/main/java/com/openclassrooms/rebonnte/ui/medicine/AddNewMedicineScreen.kt:96-165 | the stock field accepts any run of digits, and the add button then calls `stock.toInt()`, which throws `NumberFormatException` when the number does not fit a 32-bit Int | stock "9999999999" (ten nines) with a non-blank name and aisle | an over-long stock is refused with a snackbar, as blank fields are, instead of crashing the screen | not executed | AddNewMedicineScreen.LongStockThrows | AddNewMedicineScreen.SubmitChecked |
