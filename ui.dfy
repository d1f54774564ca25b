/**
 * Vocabulary shared by the forms, the auth store and the submit handlers:
 * optional values, field-targeted messages, the abstract provider outcome,
 * and the UI effects (toasts, field errors, navigations, provider calls)
 * that a handler emits, in the order it emits them.
 */
module Ui {

  datatype Option<+T> = None | Some(value: T)

  /** A message attached to one form field: a schema issue, or an error set by a handler. */
  datatype FieldError = FieldError(path: string, message: string)

  datatype ToastKind = SuccessToast | ErrorToast

  /** The identity-provider call a handler awaits. */
  datatype Request =
    | SignIn(email: string, password: string)
    | SendPasswordReset(email: string)
    | GooglePopup

  /**
   * The settled provider call: resolved, or rejected with the error's `code`.
   * A rejection without a code is any string that no handler switches on.
   */
  datatype Outcome = Ok | Err(code: string)

  /** One observable UI effect of a handler. */
  datatype Effect =
    | Call(request: Request)
    | Toast(kind: ToastKind, text: string)
    | ShowFieldError(error: FieldError)
    | Navigate(to: string)

  /** Number of toasts in an effect log. */
  function CountToasts(effects: seq<Effect>): (n: nat)
    ensures n <= |effects|
    ensures n == 0 <==> forall i :: 0 <= i < |effects| ==> !effects[i].Toast?
  {
    if effects == [] then 0
    else (if effects[0].Toast? then 1 else 0) + CountToasts(effects[1..])
  }

  /** Toast counts add up over the concatenation of two effect logs. */
  lemma {:induction false} CountToastsAppend(a: seq<Effect>, b: seq<Effect>)
    ensures CountToasts(a + b) == CountToasts(a) + CountToasts(b)
  {
    if a == [] {
      assert a + b == b;
    } else {
      assert (a + b)[1..] == a[1..] + b;
      CountToastsAppend(a[1..], b);
    }
  }

  /** The effects that display a list of field errors, one per error, in order. */
  function ShowAll(errors: seq<FieldError>): (r: seq<Effect>)
    ensures |r| == |errors|
    ensures forall i :: 0 <= i < |errors| ==> r[i] == ShowFieldError(errors[i])
  {
    if errors == [] then [] else [ShowFieldError(errors[0])] + ShowAll(errors[1..])
  }

  /** How a button renders: whether it is disabled, its caption, and whether it shows a busy icon. */
  datatype ButtonView = ButtonView(disabled: bool, caption: string, busyIcon: bool)
}
