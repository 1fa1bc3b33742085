# FinansRisk Pro front end — session, route gating and view state, in Dafny

This project models the browser side of a small financial-risk product: the client-side
**session** (the stored `accessToken`, the current user and the loading flag of `AuthProvider`),
the **route guard** and route table that decide what each location renders for a session, and the
**view state rules** of the login, registration, dashboard and firm-detail pages. Every data
operation of the product runs on a remote server; here each server answer is a parameter of the
operation that awaits it (`Response<T> = Ok(data) | Err(HttpError)`), and whether a request is sent
at all is returned as an out-parameter.

Modules follow the source files:

| module | file | form |
|---|---|---|
| `Http`, `JsText`, `Wrappers`, `Screens` | shared rules: `err.response?.data?.msg \|\| fallback`, the 401/422 test, `trim`, UTF-16 `length`, locations and render outcomes | functions |
| `AuthService` | `src/services/authService.js` | class `TokenStore` (the storage entry) and methods that change it |
| `AuthContext` | `src/contexts/AuthContext.jsx` | value `Session` with spec functions `Validated`, `LoggedIn`, `AfterFailedCall`; class `AuthProvider` whose methods are proved against them |
| `PrivateRoute` | `src/components/Auth/PrivateRoute.jsx` | function |
| `App` | `src/App.js` | functions and lemmas over the route table |
| `LoginPage`, `RegisterPage` | `src/pages/LoginPage.jsx`, `src/pages/RegisterPage.jsx` | render/validation functions; a class for the messages the submit handler sets |
| `FirmaList` | the list updaters of `src/pages/DashboardPage.jsx` | functions and lemmas |
| `DashboardPage`, `FirmaDetayPage` | `src/pages/DashboardPage.jsx`, `src/pages/FirmaDetayPage.jsx` | classes whose handlers update their fields step by step |

The provider keeps an invariant, `AuthProvider.Valid()`: a user is only held with a truthy
credential, and once not loading a user is held exactly when a credential is. Every operation of
the provider and every page handler that may log out preserves it. Consequently `validateUser`
leaving `currentUser` untouched when no token is stored (as written) is harmless: the user is
already absent then.

Where the code and the design description differ, the model follows the code:

- The design says a view logs the session out whenever an authenticated call fails with 401 or 422.
  The dashboard does so only for loading the list; a failed create shows a message and a failed
  delete an alert, and neither logs out (`HandleFirmaEkleSubmit` and `HandleFirmaSil` do not even
  have the provider in their frame).
- The design says `validate()` with no credential sets the user to absent; the code leaves it as it is.
- `login` with a successful answer that carries no truthy `access_token` stores nothing and then
  validates whatever credential was stored before (`LoggedIn`'s third postcondition).
- The registration length check is JavaScript's `length`, in UTF-16 code units: three emoji pass the
  six-character minimum (`AstralPasswordIsLongEnough`).
- A registration answer without `msg` shows "undefined" before the redirect notice (`SuccessMessage`).
- Without a `firmaId` the detail page would stay on its loading placeholder, since nothing is
  fetched and its firm loading flag starts true; the route table always supplies a non-empty one
  (`DetailPageGetsFirmaId`).

## Model

| member | source | states |
|---|---|---|
| `Http.OrElse` | src/pages/FirmaDetayPage.jsx:121 | `s \|\| fallback` is the string when it is non-empty, the fallback otherwise, and never empty with a non-empty fallback |
| `Http.MessageOr` | src/pages/LoginPage.jsx:31 | a non-empty server `msg` is the shown error; otherwise the fixed fallback; with no response it is the fallback; it is never empty with a non-empty fallback |
| `Http.IsAuthFailure` | src/pages/DashboardPage.jsx:52 | a failure without a response (network error) never counts; one with a response counts iff its status is 401 or 422 |
| `JsText.Trim` | src/pages/DashboardPage.jsx:60 | `trim` yields an infix of the input with only whitespace or line terminators cut on either side, itself neither starting nor ending with one, and empty exactly when the input is all such characters |
| `JsText.TrimmedIsInfix` | src/pages/DashboardPage.jsx:60 | what `trimStart` then `trimEnd` keep is a contiguous piece of the input with only whitespace dropped before and after it |
| `JsText.Utf16Length` | src/pages/RegisterPage.jsx:24 | `length` counts between one and two units per character |
| `AuthService.GetToken` | src/services/authService.js:21-23 | reads back exactly the stored entry, which `Login` and `Logout` round-trip through |
| `AuthService.StoredAfterLogin` | src/services/authService.js:11-13 | the entry after a successful login is the new token when truthy, else the old entry; a credential is held afterwards iff either was truthy |
| `AuthService.Register` | src/services/authService.js:4-7 | the body or error is returned unchanged; no storage access (no frame) |
| `AuthService.Login` | src/services/authService.js:9-15 | returns the answer unchanged; a truthy token is stored so `getToken` returns it; a falsy one or a failure leaves storage alone |
| `AuthService.Logout` | src/services/authService.js:17-19 | afterwards `getToken` is null, whatever was stored (so it is idempotent) |
| `AuthService.GetMe` | src/services/authService.js:25-38 | no truthy token: null and no request; otherwise `/me`'s data; on failure null, clearing the token exactly on 401/422 |
| `AuthService.TokenStore.constructor` | src/services/authService.js:21-23 | the store starts with what an earlier session persisted |
| `AuthContext.Validated` | src/contexts/AuthContext.jsx:11-29 | no token: session unchanged; else the `/me` user with the token kept, or no token and no user; a consistent session ends settled |
| `AuthContext.LoggedIn` | src/contexts/AuthContext.jsx:35-38 | a truthy token accepted by `/me` gives exactly that token and user; rejected, signed out; a falsy token validates the old session |
| `AuthContext.AfterFailedCall` | src/pages/DashboardPage.jsx:52 | a 401/422 failure signs out, any other leaves the session; settledness is kept |
| `AuthContext.ValidateIsIdempotent` | src/contexts/AuthContext.jsx:11-29 | validating twice against the same answer equals validating once |
| `AuthContext.AuthProvider.constructor` | src/contexts/AuthContext.jsx:8-9 | initial state is no user and loading, and the invariant holds |
| `AuthContext.AuthProvider.ValidateUser` | src/contexts/AuthContext.jsx:11-29 | ends not loading, keeps the invariant, requests `/me` iff a truthy token is stored, and leaves exactly `Validated` of the old session |
| `AuthContext.AuthProvider.Login` | src/contexts/AuthContext.jsx:35-38 | a failed service login propagates its error with provider and store unchanged; otherwise the session is `LoggedIn` and not loading |
| `AuthContext.AuthProvider.Logout` | src/contexts/AuthContext.jsx:40-44 | always ends with no token and no user, loading flag unchanged, invariant established |
| `AuthContext.AuthProvider.Register` | src/contexts/AuthContext.jsx:46-48 | returns the service result and changes nothing |
| `PrivateRoute.Decide` | src/components/Auth/PrivateRoute.jsx:6-14 | exactly one decision: waiting iff loading, the outlet iff settled with a user, `/login` iff settled without |
| `LoginPage.View` | src/pages/LoginPage.jsx:36-44 | placeholder iff loading, redirect to `/dashboard` iff settled with a user, else the form |
| `LoginPage.EffectNavigation` | src/pages/LoginPage.jsx:13-19 | the effect navigates exactly when the render redirects, and to the same place |
| `LoginPage.LoginForm.constructor` | src/pages/LoginPage.jsx:9 | the error starts empty |
| `LoginPage.LoginForm.HandleSubmit` | src/pages/LoginPage.jsx:22-34 | on failure a non-empty message and an untouched session; on success an empty error and the `LoggedIn` session |
| `RegisterPage.PasswordProblem` | src/pages/RegisterPage.jsx:20-27 | accepted iff the passwords match and are at least 6 UTF-16 units; a mismatch is reported first whatever the length |
| `RegisterPage.SuccessMessage` | src/pages/RegisterPage.jsx:31 | the server's `msg` followed by the fixed notice; without `msg` exactly "undefined" followed by the notice |
| `RegisterPage.AstralPasswordIsLongEnough` | src/pages/RegisterPage.jsx:24 | three characters outside the BMP pass the length check |
| `RegisterPage.RegisterForm.constructor` | src/pages/RegisterPage.jsx:10-11 | both messages start empty |
| `RegisterPage.RegisterForm.HandleSubmit` | src/pages/RegisterPage.jsx:15-39 | `register` is sent iff the local checks pass, with the form's values; otherwise the first failing check's message; then success or failure message, the other empty |
| `FirmaList.Insert` | src/pages/DashboardPage.jsx:65 | placing one firm adds exactly it to the multiset |
| `FirmaList.SortByAdi` | src/pages/DashboardPage.jsx:65 | the sort is a permutation |
| `FirmaList.InsertKeepsSorted` | src/pages/DashboardPage.jsx:65 | placing a firm into a sorted list keeps it sorted |
| `FirmaList.SortIsSorted` | src/pages/DashboardPage.jsx:65 | the sorted list is ordered by `adi` under the collation |
| `FirmaList.SortOfSortedIsIdentity` | src/pages/DashboardPage.jsx:65 | a sorted list is left as it is |
| `FirmaList.PrependThenSortIsInsert` | src/pages/DashboardPage.jsx:65 | on a sorted list, prepend-then-sort only moves the new firm to its place |
| `FirmaList.WithCreated` | src/pages/DashboardPage.jsx:65 | the list after a create is sorted by `adi` and is the old list plus exactly the new firm |
| `FirmaList.WithoutId` | src/pages/DashboardPage.jsx:74 | the filter keeps no entry with the id, and what it keeps stays in the original order |
| `FirmaList.WithoutIdCounts` | src/pages/DashboardPage.jsx:74 | every entry with another id is kept as often as before, and nothing is added |
| `FirmaList.WithoutIdKeepsSorted` | src/pages/DashboardPage.jsx:74 | deleting keeps a sorted list sorted |
| `FirmaList.WithoutAbsentId` | src/pages/DashboardPage.jsx:74 | deleting an id nobody has changes nothing |
| `FirmaList.WithoutIdIsIdempotent` | src/pages/DashboardPage.jsx:74 | deleting the same id twice equals once |
| `DashboardPage.View` | src/pages/DashboardPage.jsx:79-81 | the page's placeholder shows iff loading with no user, else the page |
| `DashboardPage.FieldsMissing` | src/pages/DashboardPage.jsx:60 | the create is refused iff the name or the VKN is all whitespace |
| `DashboardPage.Dashboard.constructor` | src/pages/DashboardPage.jsx:36-43 | empty list, flags false, messages and fields empty, form hidden |
| `DashboardPage.Dashboard.FetchFirmalar` | src/pages/DashboardPage.jsx:45-54 | no user: nothing at all; else the loading flag ends false and the list is the answer, or the error is shown and a 401/422 signs out |
| `DashboardPage.Dashboard.EditNewFirma` | src/pages/DashboardPage.jsx:106-110 | the inputs hold what was typed |
| `DashboardPage.Dashboard.SetFormVisible` | src/pages/DashboardPage.jsx:94-113 | the open and cancel buttons set the visibility |
| `DashboardPage.Dashboard.AddCreated` | src/pages/DashboardPage.jsx:65-66 | after a create the list is `WithCreated` of the old one, and the form is emptied and hidden |
| `DashboardPage.Dashboard.HandleFirmaEkleSubmit` | src/pages/DashboardPage.jsx:58-68 | sent iff neither field is blank, untrimmed; on success the list is `WithCreated` (sorted, old list plus the new firm) and the form is emptied and hidden; otherwise list and form stay and the error is set; the session is out of the frame |
| `DashboardPage.Dashboard.HandleFirmaSil` | src/pages/DashboardPage.jsx:70-77 | sent iff confirmed; success leaves `WithoutId` of the old list; failure alerts with the message; otherwise the list is unchanged |
| `FirmaDetayPage.ListedPeriods` | src/pages/FirmaDetayPage.jsx:59 | the answer's periods, none for a null answer |
| `FirmaDetayPage.View` | src/pages/FirmaDetayPage.jsx:136-146 | loading, then a non-empty error, then "not found" for a null firm, then the content |
| `FirmaDetayPage.FirmaDetay.constructor` | src/pages/FirmaDetayPage.jsx:16-31 | only the firm's loading flag starts true; everything else empty |
| `FirmaDetayPage.FirmaDetay.FetchFirmaDetay` | src/pages/FirmaDetayPage.jsx:34-47 | no `firmaId`: nothing; else not loading afterwards, the firm or the error shown, 401/422 signs out with the provider's loading flag kept |
| `FirmaDetayPage.FirmaDetay.FetchFinansalVeriDonemleri` | src/pages/FirmaDetayPage.jsx:50-70 | no `firmaId`: nothing; else the periods (none for null) or the error, 401/422 signs out with the provider's loading flag kept, flag ends false |
| `FirmaDetayPage.FirmaDetay.HandleAnalizGetir` | src/pages/FirmaDetayPage.jsx:79-94 | nothing without `firmaId` or period; else the period is selected, the result is the answer or cleared with the error, 401/422 signs out with the provider's loading flag kept |
| `FirmaDetayPage.FirmaDetay.HandleFileChange` | src/pages/FirmaDetayPage.jsx:97-101 | the picked file is selected and both upload messages cleared |
| `FirmaDetayPage.FirmaDetay.AfterUpload` | src/pages/FirmaDetayPage.jsx:121-127 | the notice is shown, file, result and period cleared, and the periods refetched with that fetch's own outcome, including its sign-out on 401/422 with the provider's loading flag kept |
| `FirmaDetayPage.FirmaDetay.HandleFileUpload` | src/pages/FirmaDetayPage.jsx:103-134 | no file or no `firmaId`: an error and nothing else; success clears file, result and period and refetches periods; failure shows the message, 401/422 signs out with the provider's loading flag kept (so the guard redirects to `/login`); flag ends false |
| `App.NavigateToDashboardOrLogin` | src/App.js:46-52 | placeholder iff loading, then `/dashboard` with a user and `/login` without |
| `App.NavBlocks` | src/App.js:19-34 | exactly one block: loading, the user menu with the username, or the login/register links |
| `App.RenderElement` | src/App.js:60-70 | a reached element shows a placeholder only while loading, redirects only once settled, and is never NotFound |
| `App.Resolve` | src/App.js:58-73 | a location renders NotFound exactly when no declared route matches it, and a placeholder only while loading |
| `App.FirstMatch` | src/App.js:58-73 | the first declared route whose pattern matches, or none when only `*` does |
| `App.ParamValue` | src/App.js:67 | the `:firmaId` parameter is the segment at its position |
| `App.MatchesWhichRoute` | src/App.js:60-70 | each pattern matches exactly its own locations |
| `App.RoutesAreDisjoint` | src/App.js:58-73 | no location matches two declared routes, so declaration order does not matter |
| `App.NotFoundExactlyForUndeclared` | src/App.js:71 | a location renders NotFound iff it is none of the declared ones |
| `App.ProtectedPagesNeedUser` | src/App.js:64-68 | the dashboard and detail pages render only when settled with a user |
| `App.PublicPagesIgnoreGuard` | src/App.js:60-61 | `/login` and `/register` render their page whatever the session |
| `App.DetailPageGetsFirmaId` | src/App.js:67 | `/firmalar/X/detay` renders the detail page for `X` |
| `App.RedirectTargets` | src/App.js:46-73 | a redirect happens only once settled, and goes to `/login` exactly without a user and to `/dashboard` exactly with one |
| `App.DashboardBehindGuard` | src/App.js:64-66 | `/dashboard` waits during the check, sends a visitor without a user to `/login`, and shows the dashboard otherwise |
| `App.NoRedirectLoop` | src/App.js:46-73 | a redirect never leads to another redirect |
| `App.SignedOutLandsOnLoginForm` | src/components/Auth/PrivateRoute.jsx:13 | signed out, every protected location redirects to `/login`, which shows the form |
| `App.DashboardPlaceholderUnreachable` | src/pages/DashboardPage.jsx:79-81 | behind the guard the dashboard's own placeholder is never rendered |
| `App.LoginReachesDashboard` | src/contexts/AuthContext.jsx:35-38 | a login whose token `/me` accepts yields that session, and the login page then leads to a rendered dashboard |

## Left out

- HTTP transport: the API client and the wrappers of `src/services/firmaService.js` are replaced by their answers, given as parameters; `uploadEdefterXML` is used by no view.
- Browser storage is the single `accessToken` entry, a field of `TokenStore`.
- Markup and styling, the list and analysis sections of the pages, `console.error`, `document.getElementById(...).value = null`, `FormData`, and the two-second `setTimeout` navigation to `/login` after registering.
- `window.confirm` is the `confirmed` parameter and `alert` the `alert` out-parameter of `HandleFirmaSil`.
- `localeCompare` is an abstract total preorder `le` on names.
- FirmaList.SortByAdi: the sort is stable by construction (a new firm goes before equal names), but stability is not stated as a lemma.
- Concurrency: every handler runs to completion on its own. The un-awaited refetch inside a successful upload completes before the handler's remaining steps; `validateUser`'s intermediate `isLoading = true` is not observable; the effects that call `validateUser` on mount and the fetches on a change of user or `firmaId` are left to the caller.
- `validateUser`'s `catch` branch is not separate: `getMe` catches every failure itself and answers null, which takes the same branch.
- A login answer whose `data` is null (the source would throw a TypeError) and `/me` bodies that are falsy without being null are not modelled.
- Null success bodies of registration and upload are not modelled: `RegisterBody` and `UploadBody` are always present. In the source, `data.msg` on a null registration body (src/pages/RegisterPage.jsx:31) throws, so the catch shows the registration failure message instead of the success line; `response.msg` on a null upload body (src/pages/FirmaDetayPage.jsx:121) throws, so the catch shows the upload failure message, with no sign-out and no refetch.
- Router details: case-insensitive matching, trailing slashes and URL decoding; locations are taken as already split into non-empty segments, and matching is first-match, which `RoutesAreDisjoint` shows agrees with ranking for this table.
- The form inputs of the login and registration pages are passed to `HandleSubmit` rather than stored; the login request body is not modelled.
- `src/index.js` (bootstrapping), `src/pages/NotFoundPage.jsx` (static markup) and the server-side financial analysis.
