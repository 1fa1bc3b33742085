/** The login page: what it renders for a session state, and the error state its submit handler sets. */
module LoginPage {
  import opened Wrappers
  import opened Http
  import opened AuthService
  import opened AuthContext
  import opened Screens

  const LOADING_TEXT := "Yükleniyor..."
  const LOGIN_FAILED := "Giriş başarısız. Lütfen bilgilerinizi kontrol edin."

  /** The render: a placeholder while loading, then a redirect to `/dashboard` for a user, else the form. */
  function View(isLoading: bool, currentUser: Option<User>): (o: Outcome)
    ensures o.Placeholder? <==> isLoading
    ensures o.Redirect? <==> !isLoading && currentUser.Some?
    ensures o.Redirect? ==> o.to == DASHBOARD_PATH
    ensures o.Show? ==> o.page == LoginScreen
  {
    if isLoading then Placeholder(LOADING_TEXT)
    else if currentUser.Some? then Redirect(DASHBOARD_PATH)
    else Show(LoginScreen)
  }

  /** The effect: `navigate('/dashboard', { replace: true })` once not loading with a user; it agrees with the render. */
  function EffectNavigation(isLoading: bool, currentUser: Option<User>): (n: Option<Path>)
    ensures n.Some? <==> View(isLoading, currentUser).Redirect?
    ensures n.Some? ==> n.value == View(isLoading, currentUser).to
  {
    if !isLoading && currentUser.Some? then Some(DASHBOARD_PATH) else None
  }

  /** The page's own state: the error line above the form. */
  class LoginForm {
    var error: string
    const auth: AuthProvider

    constructor (auth: AuthProvider)
      ensures this.auth == auth && error == ""
    {
      this.auth := auth;
      error := "";
    }

    /**
     * `handleSubmit`: clears the error, then logs in. A failed login shows the server's `msg`, or
     * the fixed text, and leaves the session alone; a successful one leaves the error empty.
     */
    method HandleSubmit(response: Response<LoginBody>, me: Response<Option<User>>)
      requires auth.Valid()
      modifies this, auth, auth.store
      ensures auth.Valid()
      ensures response.Err? ==> error == MessageOr(response.error, LOGIN_FAILED) && error != ""
      ensures response.Err? ==> unchanged(auth) && unchanged(auth.store)
      ensures response.Ok? ==> error == "" && !auth.isLoading
      ensures response.Ok? ==> auth.Snapshot() == LoggedIn(old(auth.Snapshot()), response.value, me)
    {
      error := "";
      var r := auth.Login(response, me);
      if r.Err? {
        error := MessageOr(r.error, LOGIN_FAILED);
      }
    }
  }
}
