/** The guard in front of the protected routes: a pure decision over `isLoading` and `currentUser`. */
module PrivateRoute {
  import opened Wrappers
  import opened AuthService

  const CHECKING_TEXT := "Yetkilendirme kontrol ediliyor..."

  /** The three things the guard can do: wait, render the child route (`<Outlet />`), or send to `/login`. */
  datatype Decision = CheckingAuthorization | RenderOutlet | RedirectToLogin

  /** Exactly one decision, determined by the two inputs alone; loading wins over everything. */
  function Decide(isLoading: bool, currentUser: Option<User>): (d: Decision)
    ensures d == CheckingAuthorization <==> isLoading
    ensures d == RenderOutlet <==> !isLoading && currentUser.Some?
    ensures d == RedirectToLogin <==> !isLoading && currentUser.None?
  {
    if isLoading then CheckingAuthorization
    else if currentUser.Some? then RenderOutlet
    else RedirectToLogin
  }
}
