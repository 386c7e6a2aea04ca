/**
 * The sign-in page (pages/AuthPage.tsx): three views (log in, sign up,
 * forgotten password), a simulated request per submit, and the mock user a
 * log-in or sign-up produces. No credential is checked.
 */
module Auth {
  import opened Options
  import opened Types
  import Decimal
  import Fixtures

  datatype AuthView = LoginView | SignupView | ForgotView

  /** `value || fallback`: an empty field falls back. */
  function OrElse(value: string, fallback: string): (r: string)
    ensures value != "" ==> r == value
    ensures value == "" ==> r == fallback
  {
    if value != "" then value else fallback
  }

  /**
   * The user a log-in or sign-up yields: the signed-in identity with the
   * typed name, full name and e-mail where they are not empty, and, for a
   * sign-up, an id made from the clock.
   */
  function MockUser(view: AuthView, username: string, fullName: string, email: string, now: nat): (u: User)
    ensures u.username == OrElse(username, Fixtures.CurrentUser.username)
    ensures u.fullName == OrElse(fullName, Fixtures.CurrentUser.fullName)
    ensures u.email == Some(OrElse(email, Fixtures.CurrentUser.email.value))
    ensures view == SignupView ==> u.id == "user_" + Decimal.NatToString(now)
    ensures view != SignupView ==> u.id == Fixtures.CurrentUser.id
    ensures u.isAdmin && !u.isBanned
    ensures u.(id := Fixtures.CurrentUser.id, username := Fixtures.CurrentUser.username,
               fullName := Fixtures.CurrentUser.fullName, email := Fixtures.CurrentUser.email) == Fixtures.CurrentUser
  {
    Fixtures.CurrentUser.(
      username := OrElse(username, Fixtures.CurrentUser.username),
      fullName := OrElse(fullName, Fixtures.CurrentUser.fullName),
      email := Some(OrElse(email, Fixtures.CurrentUser.email.value)),
      id := if view == SignupView then "user_" + Decimal.NatToString(now) else Fixtures.CurrentUser.id)
  }

  /** A sign-up id never equals the seed identity's id, so a sign-up never logs in as "me". */
  lemma SignupIdIsFresh(username: string, fullName: string, email: string, now: nat)
    ensures MockUser(SignupView, username, fullName, email, now).id != Fixtures.CurrentUser.id
  {
    assert |"user_" + Decimal.NatToString(now)| > 2;
  }

  /**
   * The view-switching buttons on screen: from log-in to forgotten
   * password and to sign-up; from sign-up back to log-in; from forgotten
   * password back to log-in (before and after the e-mail is sent) and,
   * before it is sent, to sign-up.
   */
  function Offered(from: AuthView, resetSent: bool, to: AuthView): (b: bool)
    ensures b ==> to != from
    ensures from == LoginView ==> (b <==> to != LoginView)
    ensures from == SignupView ==> (b <==> to == LoginView)
    ensures to == LoginView ==> (b <==> from != LoginView)
    ensures to == ForgotView ==> (b <==> from == LoginView)
    ensures from == ForgotView && to == SignupView ==> (b <==> !resetSent)
  {
    match from
    case LoginView => to == ForgotView || to == SignupView
    case SignupView => to == LoginView
    case ForgotView => to == LoginView || (!resetSent && to == SignupView)
  }

  /** A submit in flight, with the values its timer will use, fixed when the form was sent. */
  datatype Submission =
    | ResetRequest
    | Credentials(view: AuthView, username: string, fullName: string, email: string)

  datatype AuthState = AuthState(
    view: AuthView,
    email: string,
    password: string,
    username: string,
    fullName: string,
    isLoading: bool,
    resetSent: bool,
    pending: Option<Submission>)

  class AuthPage {
    var view: AuthView
    var email: string
    var password: string
    var username: string
    var fullName: string
    var isLoading: bool
    var resetSent: bool
    var pending: Option<Submission>

    function State(): AuthState
      reads this
    {
      AuthState(view, email, password, username, fullName, isLoading, resetSent, pending)
    }

    /**
     * The page shows "loading" exactly while a simulated request is in
     * flight, and a log-in or sign-up in flight carries the fields its form
     * required: an e-mail always, a full name and a username for a sign-up.
     */
    predicate Valid()
      reads this
    {
      && (isLoading <==> pending.Some?)
      && (pending.Some? && pending.value.Credentials? ==>
            var c := pending.value;
            c.view != ForgotView && c.email != "" &&
            (c.view == SignupView ==> c.username != "" && c.fullName != ""))
    }

    /** A form is on screen: always, except in the forgotten-password view once the e-mail is sent. */
    predicate FormShown()
      reads this
    {
      view != ForgotView || !resetSent
    }

    /**
     * The browser submits a form only when its required inputs are filled:
     * the e-mail in the forgotten-password view; the e-mail and the password
     * in the log-in view; those and the full name and username in the
     * sign-up view.
     */
    predicate RequiredFilled()
      reads this
    {
      && email != ""
      && (view != ForgotView ==> password != "")
      && (view == SignupView ==> fullName != "" && username != "")
    }

    constructor ()
      ensures Valid()
      ensures State() == AuthState(LoginView, "", "", "", "", false, false, None)
    {
      view := LoginView;
      email, password, username, fullName := "", "", "", "";
      isLoading := false;
      resetSent := false;
      pending := None;
    }

    /** One of the view-switching buttons. */
    method SwitchView(to: AuthView)
      requires Valid() && Offered(view, resetSent, to)
      modifies this
      ensures Valid()
      ensures State() == old(State()).(view := to)
    {
      view := to;
    }

    /** Typing in one of the fields. */
    method SetFields(email: string, password: string, username: string, fullName: string)
      requires Valid()
      modifies this
      ensures Valid()
      ensures State() == old(State()).(email := email, password := password, username := username, fullName := fullName)
    {
      this.email, this.password, this.username, this.fullName := email, password, username, fullName;
    }

    /**
     * `handleSubmit`: the page starts loading and a request is simulated;
     * while one is in flight the submit button is disabled, so a second
     * submit does nothing.
     */
    method Submit()
      requires Valid() && FormShown() && RequiredFilled()
      modifies this
      ensures Valid() && isLoading
      ensures old(isLoading) ==> State() == old(State())
      ensures !old(isLoading) && old(view) == ForgotView ==>
        State() == old(State()).(isLoading := true, pending := Some(ResetRequest))
      ensures !old(isLoading) && old(view) != ForgotView ==>
        State() == old(State()).(isLoading := true,
                                 pending := Some(Credentials(old(view), old(username), old(fullName), old(email))))
    {
      if isLoading {
        return;
      }
      isLoading := true;
      if view == ForgotView {
        pending := Some(ResetRequest);
      } else {
        pending := Some(Credentials(view, username, fullName, email));
      }
    }

    /**
     * The simulated request completes: a reset request marks the e-mail as
     * sent and logs nobody in; a log-in or sign-up hands the mock user to
     * `onLogin`. Loading stops either way. The password is never read.
     */
    method Complete(now: nat) returns (loggedIn: Option<User>)
      requires Valid() && pending.Some?
      modifies this
      ensures Valid() && !isLoading
      ensures old(pending).value.ResetRequest? ==>
        loggedIn.None? && State() == old(State()).(resetSent := true, isLoading := false, pending := None)
      ensures old(pending).value.Credentials? ==>
        var c := old(pending).value;
        loggedIn == Some(MockUser(c.view, c.username, c.fullName, c.email, now)) &&
        State() == old(State()).(isLoading := false, pending := None)
      ensures loggedIn.Some? ==> loggedIn.value.email == Some(old(pending).value.email)
      ensures loggedIn.Some? && old(pending).value.view == SignupView ==>
        loggedIn.value.username == old(pending).value.username &&
        loggedIn.value.fullName == old(pending).value.fullName
    {
      match pending.value {
        case ResetRequest =>
          resetSent := true;
          loggedIn := None;
        case Credentials(v, u, f, e) =>
          loggedIn := Some(MockUser(v, u, f, e, now));
      }
      isLoading := false;
      pending := None;
    }
  }
}
