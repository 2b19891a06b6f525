/**
 The profile page's form rules: the form's fields and error banner, the sync
 from the loaded user, saving the profile, changing the password, and the
 theme toggle. Each `PUT /users/me` request is reported as the body that was
 sent, and the backend's answer is an input.
 */
module Profile {
  import opened JsBase
  import opened UserSession

  datatype Form = Form(
    firstName: string,
    lastName: string,
    email: string,
    newPassword: string,
    confirmPassword: string,
    error: string)

  /** The body of a `PUT /users/me` request. */
  datatype UpdateBody =
    | ProfileBody(firstName: string, lastName: string, email: string)
    | PasswordBody(password: string)

  /** The backend's answer to a `PUT /users/me`. */
  datatype Response = Succeeded | Failed(detail: Option<string>)

  /** A handler's effect: the form afterwards, the request sent (if any), and whether it asked for a refetch of the user. */
  datatype Outcome = Outcome(form: Form, request: Option<UpdateBody>, refetch: bool)

  const MismatchError := "Passwords do not match"
  const PasswordFallback := "Failed to update password"
  const ProfileFallback := "Failed to update profile"

  /** The fields the profile tab edits. */
  predicate SameProfileFields(f: Form, g: Form) {
    f.firstName == g.firstName && f.lastName == g.lastName && f.email == g.email
  }

  /** The fields the settings tab edits. */
  predicate SamePasswordFields(f: Form, g: Form) {
    f.newPassword == g.newPassword && f.confirmPassword == g.confirmPassword
  }

  /** The form's first render: the user's fields when one is loaded, empty strings otherwise. */
  function InitialForm(user: Option<User>): (f: Form)
    ensures f.newPassword == "" && f.confirmPassword == "" && f.error == ""
    ensures user.None? ==> f.firstName == "" && f.lastName == "" && f.email == ""
    ensures user.Some? ==> f.firstName == user.value.firstName && f.lastName == user.value.lastName && f.email == user.value.email
  {
    match user
    case None => Form("", "", "", "", "", "")
    case Some(u) => Form(u.firstName, u.lastName, u.email, "", "", "")
  }

  /** The effect that runs when `user` changes: a loaded user overwrites the profile fields and nothing else. */
  function SyncForm(f: Form, user: Option<User>): (r: Form)
    ensures user.None? ==> r == f
    ensures user.Some? ==> r.firstName == user.value.firstName && r.lastName == user.value.lastName && r.email == user.value.email
    ensures SamePasswordFields(r, f) && r.error == f.error
  {
    match user
    case None => f
    case Some(u) => f.(firstName := u.firstName, lastName := u.lastName, email := u.email)
  }

  /** Syncing twice from the same user changes nothing more, and the first render is already in sync. */
  lemma SyncIdempotent(f: Form, user: Option<User>)
    ensures SyncForm(SyncForm(f, user), user) == SyncForm(f, user)
    ensures SyncForm(InitialForm(user), user) == InitialForm(user)
  {
  }

  /**
   `handleUpdatePassword`: mismatching entries only raise the error; equal
   entries (both empty included) are sent, cleared on success, and kept as
   typed with the backend's detail or the fallback on failure.
   */
  function UpdatePassword(f: Form, response: Response): (r: Outcome)
    ensures r.request.Some? <==> f.newPassword == f.confirmPassword
    ensures r.request.Some? ==> r.request.value == PasswordBody(f.newPassword)
    ensures f.newPassword != f.confirmPassword ==> r.form == f.(error := MismatchError)
    ensures r.form.error == "" <==> r.request.Some? && response.Succeeded?
    ensures r.request.Some? && response.Succeeded? ==> r.form.newPassword == "" && r.form.confirmPassword == ""
    ensures r.request.Some? && response.Failed? ==>
              SamePasswordFields(r.form, f) && r.form.error == DetailOr(response.detail, PasswordFallback)
    ensures SameProfileFields(r.form, f) && !r.refetch
  {
    if f.newPassword != f.confirmPassword then Outcome(f.(error := MismatchError), None, false)
    else
      var body := PasswordBody(f.newPassword);
      match response
      case Succeeded => Outcome(f.(newPassword := "", confirmPassword := "", error := ""), Some(body), false)
      case Failed(detail) => Outcome(f.(error := DetailOr(detail, PasswordFallback)), Some(body), false)
  }

  /** Two empty password boxes count as matching, so an empty password is sent. */
  lemma EmptyPasswordsAreSent(f: Form, response: Response)
    requires f.newPassword == "" && f.confirmPassword == ""
    ensures UpdatePassword(f, response).request == Some(PasswordBody(""))
  {
  }

  /**
   `handleUpdateProfile` up to the refetch: exactly the three profile fields are
   sent; success asks for a refetch and clears the error, failure shows the
   backend's detail or the fallback. No field is changed.
   */
  function UpdateProfile(f: Form, response: Response): (r: Outcome)
    ensures r.request == Some(ProfileBody(f.firstName, f.lastName, f.email))
    ensures r.refetch <==> response.Succeeded?
    ensures r.form.error == "" <==> response.Succeeded?
    ensures response.Failed? ==> r.form.error == DetailOr(response.detail, ProfileFallback)
    ensures SameProfileFields(r.form, f) && SamePasswordFields(r.form, f)
  {
    var body := ProfileBody(f.firstName, f.lastName, f.email);
    match response
    case Succeeded => Outcome(f.(error := ""), Some(body), true)
    case Failed(detail) => Outcome(f.(error := DetailOr(detail, ProfileFallback)), Some(body), false)
  }

  /**
   Saving the profile in full: the update, the refetch it triggers (which never
   fails outwardly), and the sync effect the new user value runs. After a
   successful save whose refetch returns `u`, the session holds `u` and the form
   shows `u`'s fields with no error; a failed refetch leaves the form as typed and
   the session without a user. A failed save neither refetches nor touches the
   session or the fields. The password boxes are never touched.
   */
  function SaveProfile(f: Form, s: Session, response: Response, refetched: FetchOutcome): (r: (Form, Session))
    ensures SamePasswordFields(r.0, f) && r.1.token == s.token
    ensures response.Succeeded? ==> r.0.error == "" && !r.1.isLoading
    ensures response.Succeeded? && refetched.Fetched? ==>
              r.1.user == Some(refetched.data) && r.0 == SyncForm(f, Some(refetched.data)).(error := "")
    ensures response.Succeeded? && refetched.FetchFailed? ==> r.1.user == None && r.0 == f.(error := "")
    ensures response.Failed? ==>
              && r.1 == s && SameProfileFields(r.0, f)
              && r.0.error == DetailOr(response.detail, ProfileFallback) && r.0.error != ""
  {
    var o := UpdateProfile(f, response);
    if o.refetch then
      var s' := FetchUser(s, refetched);
      (SyncForm(o.form, s'.user), s')
    else (o.form, s)
  }

  const Light := "light"
  const Dark := "dark"

  /** The theme button: "light" becomes "dark", and anything else ("dark", "system", unset) becomes "light". */
  function ToggleTheme(theme: Option<string>): (r: string)
    ensures r == Light || r == Dark
    ensures r == Dark <==> theme == Some(Light)
  {
    if theme == Some(Light) then Dark else Light
  }

  /** Between the two named themes the toggle is its own inverse. */
  lemma ToggleTwiceRestores(theme: string)
    requires theme == Light || theme == Dark
    ensures ToggleTheme(Some(ToggleTheme(Some(theme)))) == theme
  {
  }
}
