/**
 The dashboard page's gate: the `checkAuth` effect that decides between
 sending the visitor to the login page, loading the user, or doing nothing;
 the logout button; and the guard that renders nothing until the page has
 marked itself authenticated.
 */
module Dashboard {
  import opened JsBase
  import opened UserSession

  /** The page's own flag together with the user session it reads. */
  datatype Page = Page(session: Session, isAuthenticated: bool)

  /** Where the router is sent, if anywhere. */
  datatype Navigation = Stay | PushTo(path: string)

  const LoginPath := "/login"

  /** The three things `checkAuth` can do. */
  datatype Decision = ToLogin | FetchThenAuthenticate | Idle

  /** Signed in as far as the page can tell: a non-empty stored token and a loaded user. */
  predicate SignedIn(s: Session) {
    TruthyOptString(s.token) && s.user.Some?
  }

  /** The branch `checkAuth` takes. */
  function Decide(p: Page): (d: Decision)
    ensures d == ToLogin <==> !SignedIn(p.session)
    ensures d == FetchThenAuthenticate <==> SignedIn(p.session) && !p.isAuthenticated && !p.session.isLoading
  {
    if !TruthyOptString(p.session.token) || p.session.user.None? then ToLogin
    else if !p.isAuthenticated && !p.session.isLoading then FetchThenAuthenticate
    else Idle
  }

  /**
   One run of `checkAuth`, with the fetch's outcome as input: a visitor who is
   not signed in is sent to the login page and nothing else happens; otherwise,
   when not yet authenticated and not loading, the user is refetched and the
   page marks itself authenticated whatever the fetch returned.
   */
  function CheckAuth(p: Page, refetched: FetchOutcome): (r: (Page, Navigation))
    ensures r.1 == PushTo(LoginPath) <==> !SignedIn(p.session)
    ensures r.1 == Stay <==> SignedIn(p.session)
    ensures !SignedIn(p.session) ==> r.0 == p
    ensures Decide(p) == FetchThenAuthenticate ==>
              && r.0.isAuthenticated
              && r.0.session == FetchUser(p.session, refetched)
    ensures Decide(p) == Idle ==> r.0 == p
  {
    match Decide(p)
    case ToLogin => (p, PushTo(LoginPath))
    case FetchThenAuthenticate => (Page(FetchUser(p.session, refetched), true), Stay)
    case Idle => (p, Stay)
  }

  /** A stored token without a loaded user is not enough: the visitor goes to the login page. */
  lemma TokenAloneIsNotEnough(token: string, isLoading: bool, isAuthenticated: bool, refetched: FetchOutcome)
    ensures CheckAuth(Page(Session(None, isLoading, Some(token)), isAuthenticated), refetched).1 == PushTo(LoginPath)
  {
  }

  /**
   Since `fetchUser` swallows failures, a check that fetches always leaves the
   page authenticated and not loading, even when the fetch failed and left no user.
   */
  lemma FetchAlwaysAuthenticates(p: Page, refetched: FetchOutcome)
    requires Decide(p) == FetchThenAuthenticate
    ensures var (q, nav) := CheckAuth(p, refetched);
            && q.isAuthenticated && !q.session.isLoading && nav == Stay
            && (q.session.user.None? <==> refetched.FetchFailed?)
  {
  }

  /** `handleLogout`: log out, drop the page's authenticated flag, go to the login page. */
  function HandleLogout(p: Page): (r: (Page, Navigation))
    ensures r.0.session == Logout(p.session)
    ensures !r.0.isAuthenticated
    ensures r.1 == PushTo(LoginPath)
  {
    (Page(Logout(p.session), false), PushTo(LoginPath))
  }

  /** What the sidebar shows about the user. */
  datatype Sidebar = Sidebar(heading: string, avatarFallback: string, email: string)

  /** The page's render: nothing until authenticated, then the sidebar for the current user. */
  function Render(p: Page): (r: Option<Sidebar>)
    ensures r.None? <==> !p.isAuthenticated
    ensures r.Some? ==> r.value.heading == DisplayName(p.session.user) && r.value.avatarFallback == Initials(p.session.user)
    ensures r.Some? && p.session.user.Some? ==> r.value.email == p.session.user.value.email
  {
    if !p.isAuthenticated then None
    else
      var user := p.session.user;
      Some(Sidebar(DisplayName(user), Initials(user), if user.Some? then user.value.email else ""))
  }

  /** After logging out the page renders nothing, and the next check sends the visitor to log in. */
  lemma LogoutThenCheckGoesToLogin(p: Page, refetched: FetchOutcome)
    ensures var (q, _) := HandleLogout(p);
            && Render(q) == None
            && CheckAuth(q, refetched) == (q, PushTo(LoginPath))
  {
  }

  /**
   A fetch that fails still authenticates the page, which then shows the
   placeholder sidebar ("Loading..." and "U"), and the next check sends the
   visitor to the login page.
   */
  lemma FailedFetchShowsPlaceholderThenLogin(p: Page, later: FetchOutcome)
    requires Decide(p) == FetchThenAuthenticate
    ensures var (q, _) := CheckAuth(p, FetchFailed);
            && Render(q) == Some(Sidebar("Loading...", "U", ""))
            && CheckAuth(q, later) == (q, PushTo(LoginPath))
  {
  }
}
