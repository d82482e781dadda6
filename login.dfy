/**
 * The login page's submit handler. It tells the shell which stage of the
 * login animation to show (`setLoginStage`), calls the sign-in, and keeps
 * its own `isSubmitting` flag for the button. The handler is split at its
 * one `await`: `SubmitStart` runs up to the call, `SubmitSettle` runs once
 * the call has settled.
 */
module Login {
  /** The stages the page sets; the shell's `LoginStage` type may have more,
      and the shell's type file is not part of this model. */
  datatype LoginStage = Idle | Authenticating | Welcome

  /** How `api.auth.signIn` settles: no error, an `error` in the result, or
      a thrown exception. Either failure may carry a message. */
  datatype SignInOutcome = SignedIn | ErrorResult(message: string) | Threw(message: string)

  const DefaultError := "Erro no login."

  /** `err.message || 'Erro no login.'`: an empty message falls back to the
      default. */
  function ErrorToast(o: SignInOutcome): string
    requires !o.SignedIn?
  {
    if o.message != "" then o.message else DefaultError
  }

  /** The stage the attempt ends in and the error toast it shows, if any. */
  datatype Settled = Settled(stage: LoginStage, toast: seq<string>)

  function Settle(o: SignInOutcome): Settled
  {
    if o.SignedIn? then Settled(Welcome, []) else Settled(Idle, [ErrorToast(o)])
  }

  class LoginPage {
    var email: string
    var pass: string
    var isSubmitting: bool
    /** The stages passed to `setLoginStage`, in order. */
    var stageCalls: seq<LoginStage>
    var toasts: seq<string>

    constructor()
      ensures email == "" && pass == "" && !isSubmitting && stageCalls == [] && toasts == []
    {
      email := "";
      pass := "";
      isSubmitting := false;
      stageCalls := [];
      toasts := [];
    }

    /** The button is disabled while a submission is under way. */
    function ButtonEnabled(): bool
      reads this
    {
      !isSubmitting
    }

    /** The e-mail field's `onChange`. */
    method SetEmail(v: string)
      modifies this
      ensures email == v && pass == old(pass) && isSubmitting == old(isSubmitting)
      ensures stageCalls == old(stageCalls) && toasts == old(toasts)
    {
      email := v;
    }

    /** The password field's `onChange`. */
    method SetPass(v: string)
      modifies this
      ensures pass == v && email == old(email) && isSubmitting == old(isSubmitting)
      ensures stageCalls == old(stageCalls) && toasts == old(toasts)
    {
      pass := v;
    }

    /** `handleSubmit` up to the sign-in: the flag goes up and the shell is
        told that authentication started; the call gets the two fields. */
    method SubmitStart() returns (signIn: (string, string))
      modifies this
      ensures isSubmitting
      ensures stageCalls == old(stageCalls) + [Authenticating]
      ensures signIn == (email, pass)
      ensures email == old(email) && pass == old(pass) && toasts == old(toasts)
    {
      isSubmitting := true;
      stageCalls := stageCalls + [Authenticating];
      signIn := (email, pass);
    }

    /** `handleSubmit` after the sign-in: `try`, `catch` and `finally`. */
    method SubmitSettle(o: SignInOutcome)
      modifies this
      ensures !isSubmitting
      ensures stageCalls == old(stageCalls) + [Settle(o).stage]
      ensures toasts == old(toasts) + Settle(o).toast
      ensures email == old(email) && pass == old(pass)
    {
      if o.SignedIn? {
        stageCalls := stageCalls + [Welcome];
      } else {
        stageCalls := stageCalls + [Idle];
        toasts := toasts + [ErrorToast(o)];
      }
      isSubmitting := false;
    }

    /** A whole submission, start to settle. */
    method HandleSubmit(o: SignInOutcome) returns (signIn: (string, string))
      modifies this
      ensures signIn == (old(email), old(pass))
      ensures stageCalls == old(stageCalls) + [Authenticating, Settle(o).stage]
      ensures toasts == old(toasts) + Settle(o).toast
      ensures !isSubmitting && ButtonEnabled()
    {
      signIn := SubmitStart();
      assert isSubmitting && !ButtonEnabled();
      SubmitSettle(o);
    }
  }

  /** A sign-in without error ends in welcome with no toast; an error result
      or an exception ends in idle with one toast, its message or the
      default. */
  lemma SettleOutcomes(o: SignInOutcome)
    ensures Settle(o).stage == Welcome <==> o.SignedIn?
    ensures Settle(o).stage == Idle <==> !o.SignedIn?
    ensures Settle(o).stage != Authenticating
    ensures o.SignedIn? <==> Settle(o).toast == []
    ensures !o.SignedIn? ==> Settle(o).toast == [if o.message == "" then DefaultError else o.message]
  {
  }

  /** The toast is never empty. */
  lemma ToastNeverEmpty(o: SignInOutcome)
    requires !o.SignedIn?
    ensures |ErrorToast(o)| > 0
  {
  }
}
