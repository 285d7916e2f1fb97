/** The login form. */
module LoginPage {
  import opened Collections
  import opened Text
  import Api

  const LoginFailed := "Failed to login. Please try again."

  datatype State = State(username: string, password: string, error: string, loading: bool)

  /** What a submit leaves: the form, the stored token, App's authentication
      flag, where the router went, and the requests sent. */
  datatype Result = Result(state: State, session: Api.Session, authenticated: bool, navigate: Option<string>,
                           sent: seq<Api.Call>)

  /** The credentials object the form posts. */
  function Credentials(st: State): (r: map<string, string>)
    ensures r.Keys == {"username", "password"}
    ensures r["username"] == st.username && r["password"] == st.password
  {
    map["username" := st.username, "password" := st.password]
  }

  /** While the request is in flight: the banner is cleared and `loading` set. */
  function Pending(st: State): (r: State)
    ensures r.error == "" && r.loading && r.username == st.username && r.password == st.password
  {
    st.(error := "", loading := true)
  }

  /** `handleSubmit`: one `POST /login`. Once it resolves, the token (if the
      answer carries a truthy one) is stored, App's flag becomes true and the
      router goes to `/`; a rejection leaves flag and token alone and shows the
      server's message or the fallback. Either way `loading` ends false. */
  function HandleSubmit(st: State, session: Api.Session, authenticated: bool, outcome: Api.Outcome<Option<string>>)
    : (r: Result)
    ensures r.sent == [Api.AuthCall(Api.LoginEndpoint, Credentials(st))]
    ensures !r.state.loading && r.state.username == st.username && r.state.password == st.password
    ensures r.state == Pending(st).(loading := false, error := r.state.error)
    ensures outcome.Success? ==>
              && r.authenticated && r.navigate == Some("/") && r.state.error == ""
              && r.session == Api.StoreLoginToken(session, outcome.data)
    ensures outcome.Failure? ==>
              && r.authenticated == authenticated && r.navigate.None? && r.session == session
              && r.state.error == Api.ErrorText(outcome.message, LoginFailed) && r.state.error != ""
  {
    var p := Pending(st);
    var sent := [Api.AuthCall(Api.LoginEndpoint, Credentials(st))];
    match outcome
    case Success(token) => Result(p.(loading := false), Api.StoreLoginToken(session, token), true, Some("/"), sent)
    case Failure(message) =>
      Result(p.(error := Api.ErrorText(message, LoginFailed), loading := false), session, authenticated, None, sent)
  }

  /** After a successful login App's flag and the stored token agree exactly
      when the answer carried a truthy token or one was stored already. */
  lemma FlagMatchesTokenAfterLogin(st: State, session: Api.Session, authenticated: bool, token: Option<string>)
    ensures var r := HandleSubmit(st, session, authenticated, Api.Success(token));
            r.authenticated == Api.IsAuthenticated(r.session) <==> Truthy(token) || Api.IsAuthenticated(session)
  {
  }

  /** The flag is App state, the token is storage: a login answered without a
      token leaves the user flagged as authenticated with no token stored. */
  lemma FlagCanDisagreeWithToken()
    ensures var r := HandleSubmit(State("u", "p", "", false), None, false, Api.Success(None));
            r.authenticated && !Api.IsAuthenticated(r.session) && Api.AuthorizationHeader(r.session).None?
  {
  }
}

/** The registration form. */
module RegisterPage {
  import opened Collections
  import Api
  import Store
  import AuthRoutes

  const Mismatch := "Passwords do not match"
  const RegisterFailed := "Failed to register. Please try again."
  const Registered := "Registration successful! Please login."

  datatype State = State(username: string, password: string, confirmPassword: string, gmail: string,
                         error: string, loading: bool)

  /** `navigate` is the route the router went to and `flash` the message it
      carried there in its state. */
  datatype Result = Result(state: State, navigate: Option<string>, flash: Option<string>, sent: seq<Api.Call>)

  /** The body posted: username, password and gmail, never the confirmation. */
  function Payload(st: State): (r: map<string, string>)
    ensures r.Keys == {"username", "password", "gmail"} && "confirmPassword" !in r
    ensures r["username"] == st.username && r["password"] == st.password && r["gmail"] == st.gmail
  {
    map["username" := st.username, "password" := st.password, "gmail" := st.gmail]
  }

  /** `handleSubmit`: the banner is cleared first; two different passwords stop
      there with "Passwords do not match", nothing sent and `loading` untouched;
      otherwise one `POST /register`, after which success goes to `/login` with
      a message and failure shows the server's message or the fallback. */
  function HandleSubmit(st: State, outcome: Api.Outcome<()>): (r: Result)
    ensures r.sent == [] <==> st.password != st.confirmPassword
    ensures st.password != st.confirmPassword ==> r == Result(st.(error := Mismatch), None, None, [])
    ensures st.password == st.confirmPassword ==>
              && r.sent == [Api.AuthCall(Api.RegisterEndpoint, Payload(st))] && !r.state.loading
              && r.state == st.(error := r.state.error, loading := false)
    ensures st.password == st.confirmPassword && outcome.Success? ==>
              r.navigate == Some("/login") && r.flash == Some(Registered) && r.state.error == ""
    ensures st.password == st.confirmPassword && outcome.Failure? ==>
              r.navigate.None? && r.state.error == Api.ErrorText(outcome.message, RegisterFailed)
  {
    var cleared := st.(error := "");
    if st.password != st.confirmPassword then Result(cleared.(error := Mismatch), None, None, [])
    else
      var sent := [Api.AuthCall(Api.RegisterEndpoint, Payload(st))];
      match outcome
      case Success(_) => Result(cleared.(loading := false), Some("/login"), Some(Registered), sent)
      case Failure(message) =>
        Result(cleared.(error := Api.ErrorText(message, RegisterFailed), loading := false), None, None, sent)
  }

  /** Whatever the user typed, the body the form posts passes the server's
      required-fields check: it is never answered with the missing-fields 400. */
  lemma PayloadHasRequiredFields(st: State)
    ensures AuthRoutes.HasRegistrationFields(Payload(st))
    ensures forall s :: AuthRoutes.Register(s, Payload(st)).response.body != Store.Message(AuthRoutes.MissingFields)
  {
  }
}
