/** Locations and what a route element can produce, shared by the guard, the pages and the route table. */
module Screens {
  import opened Wrappers

  /** A location as its `/`-separated segments: `/firmalar/7/detay` is ["firmalar", "7", "detay"], `/` is []. */
  type Path = seq<string>

  const ROOT_PATH: Path := []
  const LOGIN_PATH: Path := ["login"]
  const REGISTER_PATH: Path := ["register"]
  const DASHBOARD_PATH: Path := ["dashboard"]

  /** The pages of the application; the detail page receives the `firmaId` route parameter. */
  datatype Page =
    | LoginScreen
    | RegisterScreen
    | DashboardScreen
    | FirmaDetayScreen(firmaId: Option<string>)
    | NotFoundScreen

  /**
   * What an element renders: a transient text, a page, or a `<Navigate to=... replace />`
   * (every redirect of this application replaces the current history entry).
   */
  datatype Outcome = Placeholder(text: string) | Show(page: Page) | Redirect(to: Path)
}
