/** The login page's controller: the sign-in/sign-up mode, which context
    operation a submit calls with which fields, the `isSubmitting` bracket and
    the redirect once a user is present. */
module Login {
  import opened Wrappers
  import opened Types
  import opened AppContext

  /** The mode the page starts in. Any mode other than `LoginMode` behaves as sign-up. */
  const InitialMode := "sign up"
  const LoginMode := "login"
  /** The sign-up mode the toggle switches to (spelled differently from `InitialMode`). */
  const SignupMode := "signup"

  /** The "Sign Up" / "Sign In" link under the form. */
  function Toggled(mode: string): (m: string)
    ensures m == LoginMode <==> mode != LoginMode
    ensures mode == LoginMode ==> m == SignupMode
  {
    if mode == LoginMode then SignupMode else LoginMode
  }

  /** Toggling twice restores the mode exactly for the two modes the toggle
      itself produces; the initial "sign up" comes back as "signup". */
  lemma ToggleTwice(mode: string)
    ensures Toggled(Toggled(mode)) == mode <==> mode == LoginMode || mode == SignupMode
    ensures Toggled(Toggled(InitialMode)) == SignupMode != InitialMode
  {
  }

  /** The context operation a submit calls, with what it is given. */
  datatype AuthCall = CallLogin(creds: Credentials) | CallSignup(creds: Credentials)

  /** `state === 'login' ? login({ email, password }) : signup({ username, email, password })`. */
  function Dispatch(mode: string, username: string, email: string, password: string): (c: AuthCall)
    ensures c.CallLogin? <==> mode == LoginMode
    ensures c.creds.email == email && c.creds.password == password
    ensures c.creds.username == (if c.CallLogin? then None else Some(username))
  {
    if mode == LoginMode then CallLogin(Credentials(None, email, password))
    else CallSignup(Credentials(Some(username), email, password))
  }

  /** The username input is rendered when `state !== 'login'`. */
  predicate ShowsUsernameField(mode: string) {
    mode != LoginMode
  }

  /** The username is sent exactly when its input is on the form. */
  lemma UsernameSentIffShown(mode: string, username: string, email: string, password: string)
    ensures ShowsUsernameField(mode) <==> Dispatch(mode, username, email, password).creds.username.Some?
  {
  }

  /** The context event a completed call amounts to. */
  function Outcome(call: AuthCall, reply: Reply<AuthData>): (e: Event)
    ensures e == LoggedIn(reply) || e == SignedUp(reply)
    ensures e.LoggedIn? <==> call.CallLogin?
  {
    if call.CallLogin? then LoggedIn(reply) else SignedUp(reply)
  }

  /** The page's state. Its `navigate` and the container's go to the same
      router, so the redirect is recorded in `ctx.nav`. */
  class LoginPage {
    const ctx: AppState
    var mode: string
    var username: string
    var email: string
    var password: string
    var showPassword: bool
    var isSubmitting: bool

    constructor (ctx: AppState)
      ensures this.ctx == ctx
      ensures mode == InitialMode && username == "" && email == "" && password == ""
      ensures !showPassword && !isSubmitting
    {
      this.ctx := ctx;
      mode := InitialMode;
      username, email, password := "", "", "";
      showPassword := false;
      isSubmitting := false;
    }

    /** `disabled={isSubmitting}` on the submit button. */
    function SubmitDisabled(): bool
      reads this
    {
      isSubmitting
    }

    method ToggleMode()
      modifies this`mode
      ensures mode == Toggled(old(mode))
    {
      if mode == LoginMode {
        mode := SignupMode;
      } else {
        mode := LoginMode;
      }
    }

    /** The first half of `handleSubmit`: mark the submit as in progress and
        start the call the mode selects. */
    method StartSubmit() returns (call: AuthCall)
      modifies this`isSubmitting
      ensures isSubmitting && SubmitDisabled()
      ensures call == Dispatch(mode, username, email, password)
    {
      isSubmitting := true;
      if mode == LoginMode {
        call := CallLogin(Credentials(None, email, password));
      } else {
        call := CallSignup(Credentials(Some(username), email, password));
      }
    }

    /** The second half of `handleSubmit`: the context operation completes with
        the gateway's reply; a rejection is caught and only logged, and
        `finally` clears `isSubmitting` either way. */
    method FinishSubmit(call: AuthCall, reply: Reply<AuthData>)
      modifies this`isSubmitting, ctx`user, ctx`onboardingCompleted, ctx`storedToken
      ensures !isSubmitting && !SubmitDisabled()
      ensures ctx.Snapshot() == Step(old(ctx.Snapshot()), Outcome(call, reply))
      ensures reply.Rejected? ==> ctx.Snapshot() == old(ctx.Snapshot())
      ensures reply.Resolved? ==> ctx.user.Some? && ctx.storedToken == Some(reply.data.jwt)
    {
      if call.CallLogin? {
        ctx.Login(reply);
      } else {
        ctx.Signup(reply);
      }
      isSubmitting := false;
    }

    /** The effect on `user`: navigate to "/" when a user is present. */
    method RedirectIfSignedIn()
      modifies ctx.nav
      ensures ctx.nav.history == old(ctx.nav.history) + (if ctx.user.Some? then ["/"] else [])
    {
      if ctx.user.Some? {
        ctx.nav.Navigate("/");
      }
    }
  }
}
