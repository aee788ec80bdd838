/**
 * components/AuthModal.tsx: the sign-in / sign-up form with its arithmetic
 * challenge. The two `Math.random` draws of a challenge are parameters.
 */
module AuthForm {
  import opened Common
  import opened Text
  import opened Auth

  /** `mathChallenge` */
  datatype Challenge = Challenge(num1: int, num2: int, answer: int)

  /** What `generateMathChallenge` can produce: two numbers from 1 to 10 and their sum. */
  predicate WellFormed(c: Challenge) {
    1 <= c.num1 <= 10 && 1 <= c.num2 <= 10 && c.answer == c.num1 + c.num2
  }

  /** `parseInt(mathInput) !== mathChallenge.answer` fails: the typed answer is accepted. */
  predicate Accepts(c: Challenge, input: string) {
    ParseInt(input) == Some(c.answer)
  }

  /** Typing the sum in decimal always passes the challenge. */
  lemma CorrectAnswerAccepted(c: Challenge)
    ensures Accepts(c, IntToString(c.answer))
  {
    ParseIntOfIntToString(c.answer);
  }

  datatype Mode = LoginMode | SignupMode

  const WrongAnswerMessage: string := "پاسخ سوال امنیتی اشتباه است."
  const GenericErrorMessage: string := "خطایی رخ داد."

  /** The message shown for a rejected login or signup: its own, or the generic one when empty. */
  function FailureMessage(o: Outcome): (m: string)
    requires o.Fail?
    ensures m != ""
    ensures o.message != "" ==> m == o.message
  {
    if o.message != "" then o.message else GenericErrorMessage
  }

  /**
   * The reply `login` or `signup` gives the form: a demo account always
   * succeeds; otherwise a login carries the server's verdict, and a signup
   * fails with the server's message or the confirm-your-e-mail notice, or
   * succeeds once signed in.
   */
  function SubmitOutcome(mode: Mode, configured: bool, loginReply: Outcome, signupReply: SignupReply): (r: Outcome)
    ensures !configured ==> r == Pass
    ensures configured && mode == LoginMode ==> r == loginReply
    ensures configured && mode == SignupMode ==> (r.Pass? <==> signupReply.SignedIn? || signupReply.NoAccount?)
  {
    if !configured then Pass
    else if mode == LoginMode then loginReply
    else match signupReply
      case SignupFailed(m) => Fail(m)
      case NoAccount => Pass
      case AwaitingConfirmation => Fail(ConfirmEmailMessage)
      case SignedIn(_) => Pass
  }

  /**
   * What a submitted form does to the account provider: `login` in login
   * mode, `signup` otherwise, with the effect each of them has.
   */
  twostate predicate SubmitEffect(auth: AuthStore, mode: Mode, email: string, name: string,
                                  loginReply: Outcome, signupReply: SignupReply, idSuffix: string)
    reads auth
  {
    && auth.writes == old(auth.writes)
    && (!auth.configured && mode == LoginMode ==>
          auth.user == Some(DemoLoginUser(email, old(auth.stored), idSuffix)) && auth.stored == auth.user
          && auth.activity == old(auth.activity))
    && (!auth.configured && mode == SignupMode ==>
          auth.user == Some(DemoSignupUser(name, email, idSuffix)) && auth.stored == auth.user
          && auth.activity == old(auth.activity))
    && (auth.configured && mode == LoginMode ==>
          auth.user == old(auth.user) && auth.stored == old(auth.stored)
          && auth.activity == old(auth.activity) + (if loginReply.Pass? then [LoginEntry(old(auth.user))] else []))
    && (auth.configured && mode == SignupMode ==>
          auth.stored == old(auth.stored) && auth.activity == old(auth.activity)
          && auth.user == (if signupReply.SignedIn? then Some(signupReply.profile) else old(auth.user)))
  }

  class AuthModal {
    var mode: Mode
    var email: string
    var password: string
    var name: string
    var error: string
    var loading: bool
    var challenge: Challenge
    var mathInput: string

    constructor (mode: Mode)
      ensures this.mode == mode && email == "" && password == "" && name == ""
      ensures error == "" && !loading && challenge == Challenge(0, 0, 0) && mathInput == ""
    {
      this.mode := mode;
      email, password, name := "", "", "";
      error := "";
      loading := false;
      challenge := Challenge(0, 0, 0);
      mathInput := "";
    }

    /**
     * `generateMathChallenge`, with `d1` and `d2` the values of
     * `Math.floor(Math.random() * 10)`: a fresh well-formed challenge whose
     * numbers are the draws plus one, and an empty answer field.
     */
    method GenerateChallenge(d1: int, d2: int)
      requires 0 <= d1 < 10 && 0 <= d2 < 10
      modifies this
      ensures WellFormed(challenge)
      ensures challenge.num1 == d1 + 1 && challenge.num2 == d2 + 1
      ensures mathInput == ""
      ensures mode == old(mode) && email == old(email) && password == old(password) && name == old(name)
      ensures error == old(error) && loading == old(loading)
    {
      var n1 := d1 + 1;
      var n2 := d2 + 1;
      challenge := Challenge(n1, n2, n1 + n2);
      mathInput := "";
    }

    /** The effect run when the modal opens: a new challenge and cleared fields; the mode stays. */
    method Open(d1: int, d2: int)
      requires 0 <= d1 < 10 && 0 <= d2 < 10
      modifies this
      ensures WellFormed(challenge) && challenge.num1 == d1 + 1 && challenge.num2 == d2 + 1
      ensures error == "" && mathInput == "" && email == "" && password == "" && name == ""
      ensures mode == old(mode) && loading == old(loading)
    {
      GenerateChallenge(d1, d2);
      error := "";
      mathInput := "";
      email := "";
      password := "";
      name := "";
    }

    /**
     * `handleSubmit`. A wrong or unreadable answer sets the error, draws a
     * new challenge from `d1`, `d2` and contacts nobody. A correct one is
     * handed to `Submit`.
     */
    method HandleSubmit(auth: AuthStore, loginReply: Outcome, signupReply: SignupReply, idSuffix: string, d1: int, d2: int)
      returns (closed: bool)
      requires 0 <= d1 < 10 && 0 <= d2 < 10
      modifies this, auth
      ensures !Accepts(old(challenge), old(mathInput)) ==>
        && !closed && error == WrongAnswerMessage
        && WellFormed(challenge) && challenge.num1 == d1 + 1 && challenge.num2 == d2 + 1 && mathInput == ""
        && loading == old(loading)
        && auth.user == old(auth.user) && auth.stored == old(auth.stored)
        && auth.writes == old(auth.writes) && auth.activity == old(auth.activity)
      ensures Accepts(old(challenge), old(mathInput)) ==>
        && !loading && challenge == old(challenge) && mathInput == old(mathInput)
        && var r := SubmitOutcome(old(mode), auth.configured, loginReply, signupReply);
           (closed <==> r.Pass?) && error == (if r.Pass? then "" else FailureMessage(r))
      ensures Accepts(old(challenge), old(mathInput)) ==>
        SubmitEffect(auth, old(mode), old(email), old(name), loginReply, signupReply, idSuffix)
      ensures auth.writes == old(auth.writes)
      ensures mode == old(mode) && email == old(email) && password == old(password) && name == old(name)
    {
      if !Accepts(challenge, mathInput) {
        error := WrongAnswerMessage;
        GenerateChallenge(d1, d2);
        return false;
      }
      closed := Submit(auth, loginReply, signupReply, idSuffix);
    }

    /**
     * The accepted branch of `handleSubmit`: the error is cleared and
     * `login` or `signup` is called by mode; success closes the modal,
     * failure shows the reply's message (or the generic one), and loading
     * ends either way.
     */
    method Submit(auth: AuthStore, loginReply: Outcome, signupReply: SignupReply, idSuffix: string)
      returns (closed: bool)
      modifies this, auth
      ensures !loading && challenge == old(challenge) && mathInput == old(mathInput)
      ensures var r := SubmitOutcome(mode, auth.configured, loginReply, signupReply);
        (closed <==> r.Pass?) && error == (if r.Pass? then "" else FailureMessage(r))
      ensures SubmitEffect(auth, mode, email, name, loginReply, signupReply, idSuffix)
      ensures mode == old(mode) && email == old(email) && password == old(password) && name == old(name)
    {
      error := "";
      loading := true;
      var r: Outcome;
      if mode == LoginMode {
        r := auth.Login(email, loginReply, idSuffix);
      } else {
        r := auth.Signup(name, email, signupReply, idSuffix);
      }
      if r.Pass? {
        closed := true;
      } else {
        closed := false;
        error := FailureMessage(r);
      }
      loading := false;
    }
  }
}
