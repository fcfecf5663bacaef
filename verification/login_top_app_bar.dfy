/**
 * The back arrow of the multi-step login and sign-up screens: above step 1
 * it steps back, at step 1 it leaves the flow for a fallback route.
 */
module LoginTopAppBar {
  import opened Wrappers

  /** The new step and the route navigated to, if any. */
  datatype BackResult = BackResult(step: int, navigateTo: Option<string>)

  /** One click of the back arrow; `fallback` is "email_sign_in" for the
      login screens and "sign_in" for the sign-up screen. */
  function OnBackClick(step: int, fallback: string): (r: BackResult)
    ensures step > 1 ==> r.step == step - 1 && r.navigateTo.None?
    ensures step <= 1 ==> r.step == step && r.navigateTo == Some(fallback)
    ensures r.navigateTo.Some? <==> r.step == step
  {
    if step > 1 then BackResult(step - 1, None) else BackResult(step, Some(fallback))
  }

  /** The step after `n` clicks, none of which left the screen. */
  function ClickBack(step: int, n: nat, fallback: string): int
  {
    if n == 0 then step else ClickBack(OnBackClick(step, fallback).step, n - 1, fallback)
  }

  /** From any step of the flow, repeated clicks walk down to step 1 and
      stay there: the arrow never takes the step below 1. */
  lemma {:induction false} ClickBackFloor(step: int, n: nat, fallback: string)
    requires step >= 1
    ensures ClickBack(step, n, fallback) >= 1
    ensures ClickBack(step, n, fallback) == if step - n >= 1 then step - n else 1
  {
    if n > 0 {
      ClickBackFloor(OnBackClick(step, fallback).step, n - 1, fallback);
    }
  }
}
