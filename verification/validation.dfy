/**
 * The field validators of the login, sign-up and recovery flows. Each maps
 * the field's text to its error message, or to `None` when the field is
 * accepted. Messages are the application's exact strings.
 */
module Validation {
  import opened Wrappers
  import opened Text
  import opened EmailPattern

  const EMAIL_EMPTY := "Email cannot be empty"
  const EMAIL_NOT_VALID := "Email not valid"
  const EMAIL_NOT_VALID_SIGN_UP := "Please enter a valid email address"
  const PASSWORD_EMPTY := "Password cannot be empty"
  const PASSWORD_TOO_SHORT := "Password must be at least 6 characters"
  const NAME_EMPTY := "Name cannot be empty"
  const SURNAME_EMPTY := "Surname cannot be empty"

  /** The sign-up flow's minimum password length. */
  const MIN_PASSWORD_LENGTH := 6

  /** A string the e-mail regex accepts starts with a local-part character,
      so it is never blank. */
  lemma MatchingEmailIsNotBlank(email: string, cls: TldClass)
    requires Matches(email, cls)
    ensures !IsBlank(email)
  {
    var at: nat, dot: nat :| SplitsAt(email, cls, at, dot);
    assert IsLocalChar(email[0]);
  }

  /** The login e-mail check: blank first, then the hand-written regex with
      top-level-domain class `cls`. */
  function LoginEmailError(email: string, cls: TldClass): (r: Option<string>)
    ensures r == Some(EMAIL_EMPTY) <==> IsBlank(email)
    ensures r == Some(EMAIL_NOT_VALID) <==> !IsBlank(email) && !Matches(email, cls)
    ensures r == None <==> Matches(email, cls)
  {
    if IsBlank(email) then
      assert !Matches(email, cls) by {
        if Matches(email, cls) { MatchingEmailIsNotBlank(email, cls); }
      }
      Some(EMAIL_EMPTY)
    else if !IsValidEmail(email, cls) then Some(EMAIL_NOT_VALID)
    else None
  }

  /** The login password check: only blank passwords are refused. */
  function LoginPasswordError(password: string): (r: Option<string>)
    ensures r.None? <==> !IsBlank(password)
    ensures r.Some? ==> r.value == PASSWORD_EMPTY
  {
    if IsBlank(password) then Some(PASSWORD_EMPTY) else None
  }

  /** The sign-up e-mail check: blank first, then the platform's e-mail
      matcher, which is passed in as `emailAddress`. */
  function SignUpEmailError(email: string, emailAddress: string -> bool): (r: Option<string>)
    ensures r == Some(EMAIL_EMPTY) <==> IsBlank(email)
    ensures r == Some(EMAIL_NOT_VALID_SIGN_UP) <==> !IsBlank(email) && !emailAddress(email)
    ensures r == None <==> !IsBlank(email) && emailAddress(email)
  {
    if IsBlank(email) then Some(EMAIL_EMPTY)
    else if !emailAddress(email) then Some(EMAIL_NOT_VALID_SIGN_UP)
    else None
  }

  /** The sign-up password check: blank first, then a minimum length in
      UTF-16 code units, which is what Kotlin's `length` counts. */
  function SignUpPasswordError(password: string): (r: Option<string>)
    ensures r == Some(PASSWORD_EMPTY) <==> IsBlank(password)
    ensures r == Some(PASSWORD_TOO_SHORT) <==> !IsBlank(password) && Utf16Length(password) < MIN_PASSWORD_LENGTH
    ensures r == None <==> !IsBlank(password) && Utf16Length(password) >= MIN_PASSWORD_LENGTH
  {
    if IsBlank(password) then Some(PASSWORD_EMPTY)
    else if Utf16Length(password) < MIN_PASSWORD_LENGTH then Some(PASSWORD_TOO_SHORT)
    else None
  }

  /** Characters outside the Basic Multilingual Plane count twice: three
      emoji make a password of length 6, which the rule accepts. */
  lemma ThreeEmojiPasswordAccepted()
    ensures |"\U{1F600}\U{1F600}\U{1F600}"| == 3
    ensures SignUpPasswordError("\U{1F600}\U{1F600}\U{1F600}") == None
  {
    var p := "\U{1F600}\U{1F600}\U{1F600}";
    assert !IsWhitespace(p[0]);
    assert forall i | 0 <= i < |p| :: p[i] as int >= 0x1_0000;
  }

  function NameError(name: string): (r: Option<string>)
    ensures r.None? <==> !IsBlank(name)
    ensures r.Some? ==> r.value == NAME_EMPTY
  {
    if IsBlank(name) then Some(NAME_EMPTY) else None
  }

  function SurnameError(lastname: string): (r: Option<string>)
    ensures r.None? <==> !IsBlank(lastname)
    ensures r.Some? ==> r.value == SURNAME_EMPTY
  {
    if IsBlank(lastname) then Some(SURNAME_EMPTY) else None
  }

  /** Every password the sign-up flow accepts, the login flow accepts too;
      the converse fails on short passwords. */
  lemma SignUpPasswordRuleIsStricter(password: string)
    ensures SignUpPasswordError(password).None? ==> LoginPasswordError(password).None?
    ensures LoginPasswordError("abc").None? && SignUpPasswordError("abc") == Some(PASSWORD_TOO_SHORT)
  {
    assert !IsWhitespace("abc"[0]);
  }

  /** A whitespace-only password is "empty", however short: the blank test
      comes first. */
  lemma BlankBeatsLength(password: string)
    requires IsBlank(password) && Utf16Length(password) < MIN_PASSWORD_LENGTH
    ensures SignUpPasswordError(password) == Some(PASSWORD_EMPTY)
  {
  }
}
