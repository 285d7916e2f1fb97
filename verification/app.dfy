/** The single-page application shell: the route table, the guard in front of
    the three private pages, and App's authentication flag, which drives only
    the navigation bar. */
module App {
  import opened Collections
  import opened Text
  import Api

  datatype Page = LoginForm | RegisterForm | Topics | Subtopics(topicId: string) | Resources(subtopicId: string)

  /** What the router shows for a path: a page, or a `<Navigate>` to another path. */
  datatype View = Render(page: Page) | Redirect(to: string)

  predicate Guarded(page: Page) {
    page.Topics? || page.Subtopics? || page.Resources?
  }

  /** `PrivateRoute`: the page when a token is stored at render time (the
      flag is not consulted), else a redirect to `/login`. */
  function PrivateRoute(session: Api.Session, page: Page): (r: View)
    ensures r == Render(page) <==> Api.IsAuthenticated(session)
    ensures !Api.IsAuthenticated(session) ==> r == Redirect("/login")
  {
    if Api.IsAuthenticated(session) then Render(page) else Redirect("/login")
  }

  /** The `:param` segment of `path` after `prefix`: present when the rest is
      non-empty and holds no further `/`. */
  function Segment(path: string, prefix: string): (r: Option<string>)
    ensures r.Some? <==> StartsWith(path, prefix) && |path| > |prefix| && '/' !in path[|prefix|..]
    ensures r.Some? ==> path == prefix + r.value && r.value != "" && '/' !in r.value
  {
    if StartsWith(path, prefix) && |path| > |prefix| && '/' !in path[|prefix|..] then
      assert path == prefix + path[|prefix|..];
      Some(path[|prefix|..])
    else None
  }

  /** The `<Routes>` table: `/login` and `/register` open, `/`,
      `/topics/:topicId` and `/subtopics/:subtopicId` behind the guard, and
      every other path redirected to `/`. */
  function Resolve(path: string, session: Api.Session): (r: View)
    ensures r.Render? && Guarded(r.page) ==> Api.IsAuthenticated(session)
    ensures r.Render? && !Guarded(r.page) ==> path == "/login" || path == "/register"
    ensures r.Redirect? ==> r.to == "/login" || r.to == "/"
    ensures path == "/login" ==> r == Render(LoginForm)
    ensures path == "/register" ==> r == Render(RegisterForm)
    ensures path == "/" ==> r == PrivateRoute(session, Topics)
    ensures (&& path != "/login" && path != "/register" && path != "/"
             && Segment(path, "/topics/").None? && Segment(path, "/subtopics/").None?) ==> r == Redirect("/")
  {
    if path == "/login" then Render(LoginForm)
    else if path == "/register" then Render(RegisterForm)
    else if path == "/" then PrivateRoute(session, Topics)
    else if Segment(path, "/topics/").Some? then PrivateRoute(session, Subtopics(Segment(path, "/topics/").value))
    else if Segment(path, "/subtopics/").Some? then PrivateRoute(session, Resources(Segment(path, "/subtopics/").value))
    else Redirect("/")
  }

  /** The page links land where they point: `/topics/<id>` and
      `/subtopics/<id>` open that topic's or subtopic's page, given a token. */
  lemma {:induction false} LinksResolve(id: string, session: Api.Session)
    requires id != "" && '/' !in id
    ensures Resolve("/topics/" + id, session) == PrivateRoute(session, Subtopics(id))
    ensures Resolve("/subtopics/" + id, session) == PrivateRoute(session, Resources(id))
  {
    var t := "/topics/" + id;
    var u := "/subtopics/" + id;
    assert t[|"/topics/"|..] == id;
    assert u[|"/subtopics/"|..] == id;
    assert t != "/login" && t != "/register" && t != "/" by { assert t[1] == 't'; }
    assert u != "/login" && u != "/register" && u != "/" by { assert u[1] == 's'; }
    assert !StartsWith(u, "/topics/") by { assert u[1] != 't'; }
  }

  /** Following the router's redirects always ends on a page within two hops:
      an unknown path goes to `/`, which without a token goes to `/login`. */
  lemma RedirectsSettle(path: string, session: Api.Session)
    ensures var v := Resolve(path, session);
            || v.Render?
            || Resolve(v.to, session).Render?
            || (Resolve(v.to, session).Redirect? && Resolve(Resolve(v.to, session).to, session).Render?)
  {
  }

  /** App's state: the stored token and the flag the navigation bar reads. */
  datatype AppState = AppState(session: Api.Session, authenticated: bool)

  /** On mount the flag is read from storage, so it says exactly whether the
      guard lets a private page through. */
  function Init(session: Api.Session): (r: AppState)
    ensures r.session == session
    ensures forall p :: r.authenticated <==> PrivateRoute(r.session, p) == Render(p)
  {
    AppState(session, Api.IsAuthenticated(session))
  }

  /** A `storage` event (another tab changed the token) re-derives the flag:
      whatever the flag said before, it agrees with the guard again. */
  function OnStorage(app: AppState, session: Api.Session): (r: AppState)
    ensures r.session == session
    ensures forall p :: r.authenticated <==> PrivateRoute(r.session, p) == Render(p)
  {
    AppState(session, Api.IsAuthenticated(session))
  }

  /** `handleLogout`: the token is removed and the flag cleared, so every
      private page now redirects to `/login`. */
  function HandleLogout(app: AppState): (r: AppState)
    ensures !r.authenticated && !Api.IsAuthenticated(r.session)
    ensures forall path :: Resolve(path, r.session).Render? ==> !Guarded(Resolve(path, r.session).page)
  {
    AppState(Api.Logout(app.session), false)
  }
}
