/**
 * The token store and the authentication endpoints: `register`, `login`, `logout`,
 * `getToken` and `getMe`. Browser storage is the single entry under the key
 * `accessToken`; every server answer is a parameter.
 */
module AuthService {
  import opened Wrappers
  import opened Http

  /** The identity `GET /me` answers with; the views read only `username`. */
  datatype User = User(username: string)

  /** The `data` of a successful `POST /login`; `access_token` may be missing. */
  datatype LoginBody = LoginBody(accessToken: Option<string>)

  /** The `data` of a successful `POST /register`. */
  datatype RegisterBody = RegisterBody(msg: Option<string>)

  /** The browser storage entry `accessToken`, the only credential the client holds. */
  class TokenStore {
    var accessToken: Option<string>

    /** The store as a page load finds it: whatever an earlier session left behind. */
    constructor (persisted: Option<string>)
      ensures accessToken == persisted
    {
      accessToken := persisted;
    }
  }

  /** `getToken()`: `localStorage.getItem('accessToken')`. */
  function GetToken(store: TokenStore): (t: Option<string>)
    reads store
    ensures t == store.accessToken
  {
    store.accessToken
  }

  /** The stored entry after `POST /login` succeeded with `body`: written only when `access_token` is truthy. */
  function StoredAfterLogin(stored: Option<string>, body: LoginBody): (t: Option<string>)
    ensures Truthy(body.accessToken) ==> t == body.accessToken
    ensures !Truthy(body.accessToken) ==> t == stored
    ensures Truthy(t) <==> Truthy(stored) || Truthy(body.accessToken)
  {
    if Truthy(body.accessToken) then body.accessToken else stored
  }

  /** `register`: the response body, or the thrown error, passed through; storage is not touched. */
  method Register(response: Response<RegisterBody>) returns (r: Response<RegisterBody>)
    ensures r == response
  {
    r := response;
  }

  /** `login`: saves a truthy `access_token` and returns the body unchanged; a failed request leaves storage alone. */
  method Login(store: TokenStore, response: Response<LoginBody>) returns (r: Response<LoginBody>)
    modifies store
    ensures r == response
    ensures response.Ok? ==> store.accessToken == StoredAfterLogin(old(store.accessToken), response.value)
    ensures response.Ok? && Truthy(response.value.accessToken) ==> GetToken(store) == response.value.accessToken
    ensures response.Err? ==> unchanged(store)
  {
    if response.Ok? && Truthy(response.value.accessToken) {
      store.accessToken := response.value.accessToken;
    }
    r := response;
  }

  /** `logout`: removes the entry, so `getToken()` answers null; doing it again changes nothing. */
  method Logout(store: TokenStore)
    modifies store
    ensures GetToken(store) == None
  {
    store.accessToken := None;
  }

  /**
   * `getMe`: with no truthy token, null and no request. Otherwise `GET /me` is sent; its data is
   * returned, and a failure yields null, removing the token only on a 401 or 422.
   */
  method GetMe(store: TokenStore, response: Response<Option<User>>) returns (user: Option<User>, requested: bool)
    modifies store
    ensures requested <==> Truthy(old(store.accessToken))
    ensures !requested ==> user == None && store.accessToken == old(store.accessToken)
    ensures requested && response.Ok? ==> user == response.value && store.accessToken == old(store.accessToken)
    ensures requested && response.Err? ==> user == None
    ensures requested && response.Err? && IsAuthFailure(response.error) ==> store.accessToken == None
    ensures requested && response.Err? && !IsAuthFailure(response.error) ==> store.accessToken == old(store.accessToken)
  {
    var token := GetToken(store);
    if !Truthy(token) {
      return None, false;
    }
    requested := true;
    match response
    case Ok(data) =>
      user := data;
    case Err(e) =>
      if IsAuthFailure(e) {
        Logout(store);
      }
      user := None;
  }
}
