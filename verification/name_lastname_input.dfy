/**
 * Step 2 of the sign-up screen: the "Next" button recomputes both field
 * errors on every click and calls `onNext` only when neither is set.
 */
module NameLastnameInput {
  import opened Wrappers
  import opened Text
  import Validation

  datatype NextClick = NextClick(nameError: Option<string>, lastnameError: Option<string>, callsOnNext: bool)

  function OnNextClick(name: string, lastname: string): (r: NextClick)
    ensures r.nameError.None? <==> !IsBlank(name)
    ensures r.lastnameError.None? <==> !IsBlank(lastname)
    ensures r.nameError.Some? ==> r.nameError.value == Validation.NAME_EMPTY
    ensures r.lastnameError.Some? ==> r.lastnameError.value == Validation.SURNAME_EMPTY
    ensures r.callsOnNext <==> !IsBlank(name) && !IsBlank(lastname)
  {
    var nameError := Validation.NameError(name);
    var lastnameError := Validation.SurnameError(lastname);
    NextClick(nameError, lastnameError, nameError == None && lastnameError == None)
  }

  /** The two checks are independent: both errors can show at once. */
  lemma BothErrorsAtOnce()
    ensures OnNextClick("", " ") == NextClick(Some(Validation.NAME_EMPTY), Some(Validation.SURNAME_EMPTY), false)
  {
  }
}
