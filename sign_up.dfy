/** The sign-up and logout controller.

    The component keeps an error message and a busy flag. Submitting checks the
    password confirmation, then asks the identity provider to create the account
    and turns any failure into a fixed message; logging out asks the provider to
    end the session and does the same. How each provider call settles is a
    parameter; the provider's own error is never shown. */
module SignUp {
  import opened Optional

  const PasswordMismatch: string := "Password do not match"
  const SignupFailed: string := "Failed to create an account"
  const LogoutFailed: string := "Failed to logout"

  datatype SignUpState = SignUpState(error: string, loading: bool)

  /** How a provider call's promise settles; a rejection carries the provider's own error. */
  datatype ProviderResult = Resolved | Rejected(reason: string)

  /** The account-creation call: its arguments, and the component's state while it is awaited. */
  datatype SignupCall = SignupCall(email: string, password: string, awaiting: SignUpState)

  /** The session-termination call, and the component's state while it is awaited. */
  datatype LogoutCall = LogoutCall(awaiting: SignUpState)

  /** Submitting the sign-up form. A mismatched confirmation only sets the error and the
      provider is not called; otherwise the error is cleared and the busy flag raised, the
      provider is called with the email and the password, a rejection sets a fixed message,
      and in every case the busy flag is lowered at the end. */
  function Submit(s: SignUpState, email: string, password: string, passwordConfirm: string,
                  provider: ProviderResult): (r: (SignUpState, Option<SignupCall>))
    // mismatch: no call, the busy flag untouched
    ensures passwordConfirm != password <==> r.1 == None
    ensures passwordConfirm != password ==> r.0.error == PasswordMismatch && r.0.loading == s.loading
    // match: the provider gets the email and the password while the form is busy with no error
    ensures passwordConfirm == password ==> r.1 == Some(SignupCall(email, password, SignUpState("", true)))
    // match: the busy flag always comes down, and the error says only whether the call failed
    ensures passwordConfirm == password ==> !r.0.loading
    ensures passwordConfirm == password ==> r.0.error == (if provider.Rejected? then SignupFailed else "")
  {
    if passwordConfirm != password then
      (s.(error := PasswordMismatch), None)
    else
      var awaiting := s.(error := "").(loading := true);
      var settled := if provider.Rejected? then awaiting.(error := SignupFailed) else awaiting;
      (settled.(loading := false), Some(SignupCall(email, password, awaiting)))
  }

  /** Logging out: the error is cleared before the provider is called, a rejection sets a
      fixed message, and the busy flag is never touched. */
  function Logout(s: SignUpState, provider: ProviderResult): (r: (SignUpState, LogoutCall))
    ensures r.1.awaiting == SignUpState("", s.loading)
    ensures r.0.error == (if provider.Rejected? then LogoutFailed else "")
    ensures r.0.loading == s.loading
  {
    var awaiting := s.(error := "");
    var settled := if provider.Rejected? then awaiting.(error := LogoutFailed) else awaiting;
    (settled, LogoutCall(awaiting))
  }

  /** Neither handler lets the provider's own error reach the component. */
  lemma ProviderReasonIsHidden(s: SignUpState, email: string, password: string, passwordConfirm: string,
                               reason1: string, reason2: string)
    ensures Submit(s, email, password, passwordConfirm, Rejected(reason1))
         == Submit(s, email, password, passwordConfirm, Rejected(reason2))
    ensures Logout(s, Rejected(reason1)) == Logout(s, Rejected(reason2))
  {
  }

  /** The confirmation is compared and then dropped: it never reaches the provider. This repeats
      part of `Submit`'s contract; what keeps the confirmation out is that a `SignupCall` has no
      field for it, and since a call is made only when the two agree, the `password` it carries
      could not be told apart from the confirmation by value alone. */
  lemma ConfirmationNotSent(s: SignUpState, email: string, password: string, passwordConfirm: string,
                            provider: ProviderResult)
    requires Submit(s, email, password, passwordConfirm, provider).1.Some?
    ensures Submit(s, email, password, passwordConfirm, provider).1.value.password == password
    ensures Submit(s, email, password, passwordConfirm, provider).1.value.email == email
  {
  }

  /** A run of either handler, to completion, with the provider's settlement. */
  datatype Action =
    | SubmitAction(email: string, password: string, passwordConfirm: string, provider: ProviderResult)
    | LogoutAction(provider: ProviderResult)

  function Step(s: SignUpState, a: Action): SignUpState
  {
    match a
    case SubmitAction(e, p, c, r) => Submit(s, e, p, c, r).0
    case LogoutAction(r) => Logout(s, r).0
  }

  /** The component after a sequence of handler runs. */
  function Run(s: SignUpState, actions: seq<Action>): SignUpState
    decreases |actions|
  {
    if actions == [] then s else Run(Step(s, actions[0]), actions[1..])
  }

  /** The messages the component can show: none, or one of its three fixed ones. */
  predicate KnownMessage(error: string)
  {
    error == "" || error == PasswordMismatch || error == SignupFailed || error == LogoutFailed
  }

  /** Between handler runs the form is never left busy, and it only ever shows its own
      messages, whatever the provider answers. */
  lemma {:induction false} RunSettles(s: SignUpState, actions: seq<Action>)
    requires !s.loading && KnownMessage(s.error)
    ensures !Run(s, actions).loading && KnownMessage(Run(s, actions).error)
    decreases |actions|
  {
    if actions != [] {
      RunSettles(Step(s, actions[0]), actions[1..]);
    }
  }

  /** The sign-up component: its error message and busy flag. */
  class Component {
    var error: string
    var loading: bool

    function State(): SignUpState
      reads this
    {
      SignUpState(error, loading)
    }

    constructor ()
      ensures State() == SignUpState("", false)
    {
      error := "";
      loading := false;
    }

    method HandleSubmit(email: string, password: string, passwordConfirm: string, provider: ProviderResult)
      returns (call: Option<SignupCall>)
      modifies this
      ensures (State(), call) == Submit(old(State()), email, password, passwordConfirm, provider)
    {
      if passwordConfirm != password {
        error := PasswordMismatch;
        return None;
      }
      error := "";
      loading := true;
      call := Some(SignupCall(email, password, State()));
      if provider.Rejected? {
        error := SignupFailed;
      }
      loading := false;
    }

    method HandleLogout(provider: ProviderResult) returns (call: LogoutCall)
      modifies this
      ensures (State(), call) == Logout(old(State()), provider)
    {
      error := "";
      call := LogoutCall(State());
      if provider.Rejected? {
        error := LogoutFailed;
      }
    }
  }
}
