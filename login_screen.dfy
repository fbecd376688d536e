/** The sign-in screen with its demo credentials and mock login. */
module LoginScreen {
  import opened Wrappers

  const DemoEmail := "student@anuvat.edu"
  const DemoPassword := "password"
  const HomeRoute := "/(tabs)/home"
  const MissingFieldsText := "Please enter both email and password."

  datatype LoginReply = LoginReply(success: bool, message: string)

  /** `mockLogin`: exact, case-sensitive comparison with the demo account. */
  function MockLogin(email: string, password: string): (r: LoginReply)
    ensures r.success <==> email == DemoEmail && password == DemoPassword
    ensures r.message == if r.success then "Logged in." else "Invalid credentials."
  {
    if email == DemoEmail && password == DemoPassword then LoginReply(true, "Logged in.")
    else LoginReply(false, "Invalid credentials.")
  }

  /** What the last press of Sign In led to. */
  datatype Outcome = NoOutcome | MissingFields | NavigatedTo(route: string) | LoginFailed(message: string)

  /** The outcome of a settled login. */
  function OutcomeOf(r: LoginReply): (o: Outcome)
    ensures o.NavigatedTo? <==> r.success
    ensures o.NavigatedTo? ==> o.route == HomeRoute
    ensures !r.success ==> o == LoginFailed(r.message)
  {
    if r.success then NavigatedTo(HomeRoute) else LoginFailed(r.message)
  }

  class Screen {
    var email: string
    var password: string
    var loading: bool
    var outcome: Outcome

    /** The form starts filled in with the demo account. */
    constructor ()
      ensures email == DemoEmail && password == DemoPassword && !loading && outcome == NoOutcome
    {
      email := DemoEmail;
      password := DemoPassword;
      loading := false;
      outcome := NoOutcome;
    }

    /** The button is disabled only while a login is in flight. */
    predicate SignInEnabled()
      reads this
    {
      !loading
    }

    method SetEmail(text: string)
      modifies this
      ensures email == text && password == old(password) && loading == old(loading) && outcome == old(outcome)
    {
      email := text;
    }

    method SetPassword(text: string)
      modifies this
      ensures password == text && email == old(email) && loading == old(loading) && outcome == old(outcome)
    {
      password := text;
    }

    /** `handleLogin` up to its `await`: an empty field stops with the missing-fields alert. */
    method BeginLogin() returns (started: bool)
      modifies this
      ensures started <==> email != "" && password != ""
      ensures !started ==> outcome == MissingFields && loading == old(loading)
      ensures started ==> loading && !SignInEnabled() && outcome == old(outcome)
      ensures email == old(email) && password == old(password)
    {
      if email == "" || password == "" {
        outcome := MissingFields;
        return false;
      }
      loading := true;
      started := true;
    }

    /** `handleLogin` after the mock resolves (with the fields as they were when it started). */
    method FinishLogin(sentEmail: string, sentPassword: string)
      modifies this
      ensures !loading && SignInEnabled() && outcome == OutcomeOf(MockLogin(sentEmail, sentPassword))
      ensures email == old(email) && password == old(password)
    {
      var result := MockLogin(sentEmail, sentPassword);
      loading := false;
      outcome := OutcomeOf(result);
    }

    /** `handleLogin` run to completion. */
    method HandleLogin()
      modifies this
      ensures old(email) == "" || old(password) == "" ==> outcome == MissingFields && loading == old(loading)
      ensures old(email) != "" && old(password) != "" ==>
                !loading && (outcome.NavigatedTo? <==> old(email) == DemoEmail && old(password) == DemoPassword)
      ensures old(email) != "" && old(password) != "" && !(old(email) == DemoEmail && old(password) == DemoPassword) ==>
                outcome == LoginFailed("Invalid credentials.")
      ensures outcome.NavigatedTo? ==> outcome.route == HomeRoute
      ensures email == old(email) && password == old(password)
    {
      var started := BeginLogin();
      if started {
        FinishLogin(email, password);
      }
    }
  }

  /** Signing in with the prefilled form goes to the home tab. */
  lemma PrefilledFormSignsIn()
    ensures OutcomeOf(MockLogin(DemoEmail, DemoPassword)) == NavigatedTo(HomeRoute)
  {
  }
}
