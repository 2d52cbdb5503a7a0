/**
 * The registration page: where a signed-in visitor is sent, the ordered
 * checks `handleSubmit` makes before calling `signUp`, the message it shows,
 * and the condition that enables the submit button.
 */
module Register {
  import opened Wrappers
  import opened Text
  import opened Schema

  /** The four form fields. */
  datatype Form = Form(username: string, email: string, password: string, confirmPassword: string)

  const MismatchMessage := "Passwörter stimmen nicht überein"
  const TooShortMessage := "Passwort muss mindestens 6 Zeichen lang sein"
  const MinPasswordLength := 6

  /** `!s.trim()`: the field holds nothing but whitespace. */
  predicate Blank(s: string) {
    Trim(s) == []
  }

  /** Where the page sends a visitor who is already signed in; `None` renders the form. */
  function RedirectFor(user: Option<User>): (r: Option<string>)
    ensures r.None? <==> user.None?
    ensures r == Some("/admin") <==> user.Some? && user.value.role == Admin
    ensures r == Some("/game") <==> user.Some? && user.value.role != Admin
  {
    if user.None? then None
    else if user.value.role == Admin then Some("/admin") else Some("/game")
  }

  /** The outcome of the checks before `signUp`. */
  datatype Check = BlankField | Mismatch | TooShort | Passed

  /** `handleSubmit`'s early returns, in their order: blank fields, password mismatch, short password. */
  function Validate(f: Form): Check {
    if Blank(f.username) || Blank(f.email) || Blank(f.password) then BlankField
    else if f.password != f.confirmPassword then Mismatch
    else if |f.password| < MinPasswordLength then TooShort
    else Passed
  }

  /** The checks pass exactly for a filled-in form whose matching password is at least six characters long. */
  lemma ValidateAccepts(f: Form)
    ensures Validate(f) == Passed <==>
            !AllSpace(f.username) && !AllSpace(f.email) && !AllSpace(f.password) &&
            f.password == f.confirmPassword && |f.password| >= 6
  {
  }

  /** A mismatch is reported before the length is looked at: a short, mismatching password reports the mismatch. */
  lemma MismatchBeforeLength(f: Form)
    requires !Blank(f.username) && !Blank(f.email) && !Blank(f.password)
    requires f.password != f.confirmPassword
    ensures Validate(f) == Mismatch
  {
  }

  /** `disabled={loading || blank field || password !== confirmPassword}`, negated. */
  predicate SubmitEnabled(loading: bool, f: Form) {
    !(loading || Blank(f.username) || Blank(f.email) || Blank(f.password) || f.password != f.confirmPassword)
  }

  /**
   * The button is enabled exactly when not loading and the first two checks
   * pass; the password length is not part of the button's condition.
   */
  lemma EnabledMeansFirstChecksPass(loading: bool, f: Form)
    ensures SubmitEnabled(loading, f) <==> !loading && (Validate(f) == Passed || Validate(f) == TooShort)
  {
  }

  /** A concrete form for which the button is enabled while `Validate` gives `TooShort`. */
  lemma EnabledButTooShort()
    ensures var f := Form("anna", "a@b.de", "abc", "abc");
            SubmitEnabled(false, f) && Validate(f) == TooShort
  {
    var f := Form("anna", "a@b.de", "abc", "abc");
    assert f.username[0] == 'a' && f.email[0] == 'a' && f.password[0] == 'a';
    assert !AllSpace(f.username) && !AllSpace(f.email) && !AllSpace(f.password);
  }

  /** A message the page shows. */
  datatype Toast = ErrorToast(message: string) | SuccessToast(message: string)

  /** What one submission does: whether `signUp` is called, and the message shown, if any. */
  datatype Submission = Submission(callsSignUp: bool, toast: Option<Toast>)

  /**
   * The effect of `handleSubmit` on `f`, where `signUpError` is the `error`
   * field of the result `signUp` would return.
   */
  function SubmitEffect(f: Form, signUpError: Option<string>): (r: Submission)
    ensures r.callsSignUp <==> Validate(f) == Passed
    ensures Validate(f) == BlankField ==> r.toast.None?
    ensures Validate(f) == Mismatch ==> r.toast == Some(ErrorToast(MismatchMessage))
    ensures Validate(f) == TooShort ==> r.toast == Some(ErrorToast(TooShortMessage))
    ensures r.callsSignUp && Given(signUpError) ==> r.toast == Some(ErrorToast(signUpError.value))
    ensures r.callsSignUp && !Given(signUpError) ==> r.toast.Some? && r.toast.value.SuccessToast?
  {
    match Validate(f)
    case BlankField => Submission(false, None)
    case Mismatch => Submission(false, Some(ErrorToast(MismatchMessage)))
    case TooShort => Submission(false, Some(ErrorToast(TooShortMessage)))
    case Passed =>
      if Given(signUpError) then Submission(true, Some(ErrorToast(signUpError.value)))
      else Submission(true, Some(SuccessToast("Registrierung erfolgreich! Willkommen, " + f.username + "!")))
  }

  /** Whatever `signUp` would answer, a failed check neither calls it nor depends on it. */
  lemma FailedCheckIgnoresSignUp(f: Form, e1: Option<string>, e2: Option<string>)
    requires Validate(f) != Passed
    ensures SubmitEffect(f, e1) == SubmitEffect(f, e2) && !SubmitEffect(f, e1).callsSignUp
  {
  }

  /** The page's state: the form, the loading flag and the last message shown. */
  class RegisterPage {
    var form: Form
    var loading: bool
    var toast: Option<Toast>

    constructor ()
      ensures form == Form("", "", "", "") && !loading && toast.None?
    {
      form := Form("", "", "", "");
      loading := false;
      toast := None;
    }

    /**
     * `handleSubmit`. `signUpError` stands for the awaited `signUp` result;
     * `loading` is set around that call and is cleared once it returns.
     */
    method HandleSubmit(signUpError: Option<string>) returns (calledSignUp: bool)
      modifies this
      ensures var effect := SubmitEffect(old(form), signUpError);
              calledSignUp == effect.callsSignUp &&
              toast == (if effect.toast.Some? then effect.toast else old(toast))
      ensures loading == (if calledSignUp then false else old(loading))
      ensures form == old(form)
    {
      var effect := SubmitEffect(form, signUpError);
      calledSignUp := effect.callsSignUp;
      if calledSignUp {
        loading := true;
        loading := false;
      }
      if effect.toast.Some? {
        toast := effect.toast;
      }
    }
  }
}
