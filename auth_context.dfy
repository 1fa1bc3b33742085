/**
 * The session manager (`AuthProvider`): the current user, the loading flag, and the
 * operations `validateUser`, `login`, `logout` and `register` over the token store.
 * The value `Session` and the functions on it specify what each operation leaves behind.
 */
module AuthContext {
  import opened Wrappers
  import opened Http
  import opened AuthService

  /** The stored credential together with the current user. */
  datatype Session = Session(token: Option<string>, user: Option<User>)

  const SIGNED_OUT := Session(None, None)

  /** A user is only ever held together with a credential. */
  predicate Consistent(s: Session) {
    s.user.Some? ==> Truthy(s.token)
  }

  /** A user is held exactly when a credential is: the state every validation ends in. */
  predicate Settled(s: Session) {
    Truthy(s.token) <==> s.user.Some?
  }

  /** The session `validateUser` leaves behind when `GET /me` would answer `me`. */
  function Validated(s: Session, me: Response<Option<User>>): (r: Session)
    ensures !Truthy(s.token) ==> r == s
    ensures Truthy(s.token) ==> (r.user.Some? <==> me.Ok? && me.value.Some?)
    ensures Truthy(s.token) && r.user.Some? ==> r == Session(s.token, me.value)
    ensures Truthy(s.token) && r.user.None? ==> r == SIGNED_OUT
    ensures Consistent(s) ==> Settled(r)
  {
    if !Truthy(s.token) then s
    else if me.Ok? && me.value.Some? then Session(s.token, me.value)
    else SIGNED_OUT
  }

  /** The session `login` leaves behind after `POST /login` answered `body`: the token is stored, then validated. */
  function LoggedIn(s: Session, body: LoginBody, me: Response<Option<User>>): (r: Session)
    ensures Truthy(body.accessToken) && me.Ok? && me.value.Some? ==> r == Session(body.accessToken, me.value)
    ensures Truthy(body.accessToken) && !(me.Ok? && me.value.Some?) ==> r == SIGNED_OUT
    ensures !Truthy(body.accessToken) ==> r == Validated(s, me)
    ensures Consistent(s) ==> Settled(r)
  {
    Validated(s.(token := StoredAfterLogin(s.token, body)), me)
  }

  /** The session a view leaves behind when one of its authenticated calls failed with `e`. */
  function AfterFailedCall(s: Session, e: HttpError): (r: Session)
    ensures IsAuthFailure(e) ==> r == SIGNED_OUT
    ensures !IsAuthFailure(e) ==> r == s
    ensures Settled(s) ==> Settled(r)
  {
    if IsAuthFailure(e) then SIGNED_OUT else s
  }

  /** Validating again against the same server answer changes nothing. */
  lemma ValidateIsIdempotent(s: Session, me: Response<Option<User>>)
    ensures Validated(Validated(s, me), me) == Validated(s, me)
  {
    if Truthy(s.token) && !(me.Ok? && me.value.Some?) {
      assert Validated(s, me) == SIGNED_OUT;
    }
  }

  class AuthProvider {
    var currentUser: Option<User>
    var isLoading: bool
    const store: TokenStore

    /** The session this provider and its store hold. */
    function Snapshot(): Session
      reads this, store
    {
      Session(store.accessToken, currentUser)
    }

    /** The provider's invariant: never a user without a credential, and settled whenever not loading. */
    ghost predicate Valid()
      reads this, store
    {
      Consistent(Snapshot()) && (!isLoading ==> Settled(Snapshot()))
    }

    /** The provider as it mounts: no user yet, loading, over whatever credential storage holds. */
    constructor (store: TokenStore)
      ensures this.store == store
      ensures currentUser == None && isLoading
      ensures Valid()
    {
      this.store := store;
      currentUser := None;
      isLoading := true;
    }

    /**
     * `validateUser`: with no truthy token, no `GET /me` and the user untouched; otherwise the
     * user `/me` returns, or, on a null answer or any failure, no token and no user. Always ends
     * with `isLoading` false.
     */
    method ValidateUser(me: Response<Option<User>>) returns (meRequested: bool)
      requires Consistent(Snapshot())
      modifies this, store
      ensures Valid() && !isLoading
      ensures meRequested <==> Truthy(old(store.accessToken))
      ensures Snapshot() == Validated(old(Snapshot()), me)
    {
      isLoading := true;
      meRequested := false;
      var token := GetToken(store);
      if Truthy(token) {
        var user, requested := GetMe(store, me);
        meRequested := true;
        if user.Some? {
          currentUser := user;
        } else {
          AuthService.Logout(store);
          currentUser := None;
        }
      }
      isLoading := false;
    }

    /**
     * `login`: a failed `POST /login` propagates its error and changes nothing; otherwise the
     * answer's token is stored and the session validated.
     */
    method Login(response: Response<LoginBody>, me: Response<Option<User>>) returns (r: Result<(), HttpError>)
      requires Valid()
      modifies this, store
      ensures Valid()
      ensures r.Err? <==> response.Err?
      ensures response.Err? ==> r.error == response.error && unchanged(this) && unchanged(store)
      ensures response.Ok? ==> !isLoading && Snapshot() == LoggedIn(old(Snapshot()), response.value, me)
    {
      var body := AuthService.Login(store, response);
      if body.Err? {
        return Err(body.error);
      }
      var meRequested := ValidateUser(me);
      r := Ok(());
    }

    /** `logout`: no credential and no user, whatever the state before; so twice is the same as once. */
    method Logout()
      modifies this, store
      ensures Valid()
      ensures Snapshot() == SIGNED_OUT && isLoading == old(isLoading)
    {
      AuthService.Logout(store);
      currentUser := None;
    }

    /** `register`: the service's result, with the session untouched. */
    method Register(response: Response<RegisterBody>) returns (r: Response<RegisterBody>)
      ensures r == response
    {
      r := AuthService.Register(response);
    }
  }
}
