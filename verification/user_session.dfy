/**
 The signed-in user as the whole client sees it: the user context's state
 (`user`, `isLoading`), the stored auth token, the `fetchUser` and `logout`
 transitions, the `useUser` hook, and the two ways pages display the user.

 The `/users/me` request's result is an input of `fetchUser`.
 */
module UserSession {
  import opened JsBase

  datatype User = User(email: string, firstName: string, lastName: string)

  /** The provider's state plus the `authToken` entry of local storage. */
  datatype Session = Session(user: Option<User>, isLoading: bool, token: Option<string>)

  /** What the context hands to its consumers (the two callbacks are fixed and left implicit). */
  datatype ContextValue = ContextValue(user: Option<User>, isLoading: bool)

  /** The value `createContext` is given, seen by consumers outside any provider. */
  const DefaultContext := ContextValue(None, false)

  /** The provider's state on mount, with whatever token local storage already holds. */
  function InitialSession(storedToken: Option<string>): (s: Session)
    ensures Exposed(s) == DefaultContext
    ensures s.token == storedToken
  {
    Session(None, false, storedToken)
  }

  /** The value the provider exposes for a session. */
  function Exposed(s: Session): ContextValue {
    ContextValue(s.user, s.isLoading)
  }

  /** The answer to `GET /users/me`. */
  datatype FetchOutcome = Fetched(data: User) | FetchFailed

  /** `fetchUser` up to its request: loading starts, nothing else changes. */
  function FetchStart(s: Session): (r: Session)
    ensures r.isLoading
    ensures r.user == s.user && r.token == s.token
  {
    s.(isLoading := true)
  }

  /**
   `fetchUser` once the request settles: the user becomes the response data,
   or nobody on failure (the error is swallowed), and loading stops either way.
   */
  function FetchSettle(s: Session, outcome: FetchOutcome): (r: Session)
    ensures !r.isLoading
    ensures r.token == s.token
    ensures outcome.Fetched? ==> r.user == Some(outcome.data)
    ensures outcome.FetchFailed? ==> r.user == None
  {
    match outcome
    case Fetched(data) => Session(Some(data), false, s.token)
    case FetchFailed => Session(None, false, s.token)
  }

  /** `await fetchUser()`: the whole request, which never rejects. */
  function FetchUser(s: Session, outcome: FetchOutcome): (r: Session)
    ensures !r.isLoading && r.token == s.token
    ensures r.user.Some? <==> outcome.Fetched?
    ensures outcome.Fetched? ==> r.user.value == outcome.data
  {
    FetchSettle(FetchStart(s), outcome)
  }

  /** `logout`: forget the user and remove the stored token; the loading flag is left alone. */
  function Logout(s: Session): (r: Session)
    ensures r.user == None && r.token == None
    ensures r.isLoading == s.isLoading
  {
    Session(None, s.isLoading, None)
  }

  /** A settled fetch depends only on its own outcome: whatever user was there before is replaced. */
  lemma FetchForgetsPreviousUser(s: Session, t: Session, outcome: FetchOutcome)
    requires s.token == t.token
    ensures FetchUser(s, outcome) == FetchUser(t, outcome)
  {
  }

  /** Logging out twice is the same as logging out once. */
  lemma LogoutIdempotent(s: Session)
    ensures Logout(Logout(s)) == Logout(s)
  {
  }

  /** `useContext(UserContext)`: the nearest provider's value, else the default; never `undefined`. */
  function UseContext(nearestProvider: Option<Session>): (r: Option<ContextValue>)
    ensures r.Some?
    ensures nearestProvider.None? ==> r.value == DefaultContext
    ensures nearestProvider.Some? ==> r.value == Exposed(nearestProvider.value)
  {
    match nearestProvider
    case None => Some(DefaultContext)
    case Some(s) => Some(Exposed(s))
  }

  /** What a hook call does: returns a value or throws an Error with a message. */
  datatype HookResult = Returned(value: ContextValue) | Threw(message: string)

  const OutsideProviderError := "useUser must be used within a UserProvider"

  /** `useUser`'s guard against a missing context. */
  function UseUser(context: Option<ContextValue>): (r: HookResult)
    ensures r.Threw? <==> context.None?
    ensures context.Some? ==> r == Returned(context.value)
  {
    match context
    case None => Threw(OutsideProviderError)
    case Some(c) => Returned(c)
  }

  /** Because the context has a default, `useUser` never throws, inside or outside a provider. */
  lemma UseUserNeverThrows(nearestProvider: Option<Session>)
    ensures UseUser(UseContext(nearestProvider)).Returned?
    ensures nearestProvider.None? ==> UseUser(UseContext(nearestProvider)).value == DefaultContext
  {
  }

  /**
   The avatar fallback, on the dashboard sidebar and on the profile page alike:
   the first letters of the first and last names, or "U" with no user. An empty name contributes the text "undefined", as indexing
   an empty string does in a template literal.
   */
  function Initials(user: Option<User>): (r: string)
    ensures user.None? ==> r == "U"
    ensures user.Some? && |user.value.firstName| > 0 && |user.value.lastName| > 0 ==>
              r == [user.value.firstName[0], user.value.lastName[0]]
    ensures user.Some? && |user.value.firstName| == 0 && |user.value.lastName| > 0 ==>
              r == "undefined" + [user.value.lastName[0]]
    ensures user.Some? && |user.value.firstName| > 0 && |user.value.lastName| == 0 ==>
              r == [user.value.firstName[0]] + "undefined"
    ensures user.Some? && |user.value.firstName| == 0 && |user.value.lastName| == 0 ==>
              r == "undefinedundefined"
  {
    match user
    case None => "U"
    case Some(u) => FirstCharText(u.firstName) + FirstCharText(u.lastName)
  }

  /** The sidebar heading: "first last", or "Loading..." while there is no user. */
  function DisplayName(user: Option<User>): (r: string)
    ensures user.None? ==> r == "Loading..."
    ensures user.Some? ==> r == user.value.firstName + " " + user.value.lastName
  {
    match user
    case None => "Loading..."
    case Some(u) => u.firstName + " " + u.lastName
  }

  /**
   For a user with both names, the avatar's two letters are the first letters
   of the two words of the heading; with no user the two show "U" and
   "Loading...".
   */
  lemma InitialsMatchDisplayName(user: Option<User>)
    ensures user.None? ==> Initials(user) == "U" && DisplayName(user) == "Loading..."
    ensures user.Some? && |user.value.firstName| > 0 && |user.value.lastName| > 0 ==>
              var name := DisplayName(user);
              var k := |user.value.firstName|;
              && |Initials(user)| == 2
              && Initials(user)[0] == name[0]
              && name[k] == ' '
              && Initials(user)[1] == name[k + 1]
  {
  }
}
