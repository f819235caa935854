/**
 * The client's authentication session (`AuthProvider`): the access token and
 * user kept in React state, mirrored in the browser's `localStorage` (a map
 * from keys to strings) and in the shared `Authorization` header of the HTTP
 * client. A user is carried as its JSON text, so `JSON.stringify` and
 * `JSON.parse` are the identity here.
 */
module AuthContext {
  import opened Wrappers
  import opened Strings

  type Storage = map<string, string>

  const TokenKey: string := "token"
  const RefreshTokenKey: string := "refreshToken"
  const UserKey: string := "user"

  /** The three keys the session owns; every other storage key is left alone. */
  predicate IsSessionKey(k: string) {
    k == TokenKey || k == RefreshTokenKey || k == UserKey
  }

  /** `localStorage.getItem(k)`: null when the key is absent. */
  function Get(m: Storage, k: string): Option<string> {
    if k in m then Some(m[k]) else None
  }

  /** The value of the `Authorization` header for an access token. */
  function Bearer(token: string): string {
    "Bearer " + token
  }

  /** Everything the provider owns: storage, the two state cells and the shared header. */
  datatype Session = Session(storage: Storage, token: Option<string>, user: Option<string>, authorization: Option<string>)

  /**
   * The mount effect: the token (and its header) is restored only when a
   * truthy `token` key is stored, the user only when a truthy `user` key is.
   */
  function Restored(s: Session): (r: Session)
    ensures r.storage == s.storage
    ensures Truthy(Get(s.storage, TokenKey)) ==>
      r.token == Get(s.storage, TokenKey) && r.authorization == Some(Bearer(s.storage[TokenKey]))
    ensures !Truthy(Get(s.storage, TokenKey)) ==> r.token == s.token && r.authorization == s.authorization
    ensures Truthy(Get(s.storage, UserKey)) ==> r.user == Get(s.storage, UserKey)
    ensures !Truthy(Get(s.storage, UserKey)) ==> r.user == s.user
  {
    var savedToken := Get(s.storage, TokenKey);
    var savedUser := Get(s.storage, UserKey);
    var afterToken :=
      if Truthy(savedToken) then s.(token := savedToken, authorization := Some(Bearer(savedToken.value)))
      else s;
    if Truthy(savedUser) then afterToken.(user := savedUser) else afterToken
  }

  /**
   * `login`: writes `token` and `user`, writes `refreshToken` only when a
   * truthy one is supplied, and sets the state and the header.
   */
  function LoggedIn(s: Session, newToken: string, newUser: string, refreshToken: Option<string>): (r: Session)
    ensures Get(r.storage, TokenKey) == Some(newToken)
    ensures Get(r.storage, UserKey) == Some(newUser)
    ensures Get(r.storage, RefreshTokenKey) ==
      if Truthy(refreshToken) then refreshToken else Get(s.storage, RefreshTokenKey)
    ensures forall k :: !IsSessionKey(k) ==> Get(r.storage, k) == Get(s.storage, k)
    ensures r.token == Some(newToken) && r.user == Some(newUser)
    ensures r.authorization == Some(Bearer(newToken))
  {
    var withToken := s.storage[TokenKey := newToken];
    var withRefresh := if Truthy(refreshToken) then withToken[RefreshTokenKey := refreshToken.value] else withToken;
    Session(withRefresh[UserKey := newUser], Some(newToken), Some(newUser), Some(Bearer(newToken)))
  }

  /** `logout`: removes the three keys, clears the state and deletes the header. */
  function LoggedOut(s: Session): (r: Session)
    ensures forall k :: IsSessionKey(k) ==> k !in r.storage
    ensures forall k :: !IsSessionKey(k) ==> Get(r.storage, k) == Get(s.storage, k)
    ensures r.token.None? && r.user.None? && r.authorization.None?
  {
    Session(s.storage - {TokenKey} - {RefreshTokenKey} - {UserKey}, None, None, None)
  }

  /** Logging out twice is logging out once. */
  lemma LogoutIdempotent(s: Session)
    ensures LoggedOut(LoggedOut(s)) == LoggedOut(s)
  {
    var once := LoggedOut(s).storage;
    assert once - {TokenKey} - {RefreshTokenKey} - {UserKey} == once;
  }

  /** Logging in and then out leaves storage as it was, minus the session keys. */
  lemma LoginThenLogout(s: Session, newToken: string, newUser: string, refreshToken: Option<string>)
    ensures LoggedOut(LoggedIn(s, newToken, newUser, refreshToken)) == LoggedOut(s)
  {
    var a := LoggedOut(LoggedIn(s, newToken, newUser, refreshToken)).storage;
    var b := LoggedOut(s).storage;
    assert forall k :: k in a <==> k in b by {
      forall k ensures k in a <==> k in b {
        if !IsSessionKey(k) {
          assert Get(a, k) == Get(LoggedIn(s, newToken, newUser, refreshToken).storage, k);
        }
      }
    }
    assert a == b;
  }

  /** What the refresh endpoint answered: a new access token, or an error. */
  datatype RefreshReply = Refreshed(accessToken: string) | RefreshFailed

  /**
   * `refreshToken`: without a stored refresh token, or when the request
   * fails, it logs out and yields null; otherwise it stores and installs the
   * new access token, yields it, and leaves `user` and `refreshToken` alone.
   */
  function AfterRefresh(s: Session, reply: RefreshReply): (r: (Session, Option<string>))
    ensures !Truthy(Get(s.storage, RefreshTokenKey)) ==> r == (LoggedOut(s), None)
    ensures reply.RefreshFailed? ==> r == (LoggedOut(s), None)
    ensures Truthy(Get(s.storage, RefreshTokenKey)) && reply.Refreshed? ==>
      && r.1 == Some(reply.accessToken)
      && Get(r.0.storage, TokenKey) == Some(reply.accessToken)
      && (forall k :: k != TokenKey ==> Get(r.0.storage, k) == Get(s.storage, k))
      && r.0.token == Some(reply.accessToken)
      && r.0.user == s.user
      && r.0.authorization == Some(Bearer(reply.accessToken))
  {
    if !Truthy(Get(s.storage, RefreshTokenKey)) then (LoggedOut(s), None)
    else match reply
      case RefreshFailed => (LoggedOut(s), None)
      case Refreshed(t) =>
        (s.(storage := s.storage[TokenKey := t], token := Some(t), authorization := Some(Bearer(t))), Some(t))
  }

  /** The provider's state cells, its view of `localStorage`, and the HTTP client's default header. */
  class AuthProvider {
    var storage: Storage
    var token: Option<string>
    var user: Option<string>
    var authorization: Option<string>

    /** First render: `useState(null)` twice, over whatever storage and header already exist. */
    constructor (storage: Storage, authorization: Option<string>)
      ensures State() == Session(storage, None, None, authorization)
    {
      this.storage := storage;
      token := None;
      user := None;
      this.authorization := authorization;
    }

    function State(): Session
      reads this
    {
      Session(storage, token, user, authorization)
    }

    /** The mount effect. */
    method RestoreSession()
      modifies this
      ensures State() == Restored(old(State()))
    {
      var savedToken := Get(storage, TokenKey);
      var savedUser := Get(storage, UserKey);
      if Truthy(savedToken) {
        token := savedToken;
        authorization := Some(Bearer(savedToken.value));
      }
      if Truthy(savedUser) {
        user := savedUser;
      }
    }

    method Login(newToken: string, newUser: string, refreshToken: Option<string>)
      modifies this
      ensures State() == LoggedIn(old(State()), newToken, newUser, refreshToken)
    {
      storage := storage[TokenKey := newToken];
      if Truthy(refreshToken) {
        storage := storage[RefreshTokenKey := refreshToken.value];
      }
      storage := storage[UserKey := newUser];
      token := Some(newToken);
      user := Some(newUser);
      authorization := Some(Bearer(newToken));
    }

    method Logout()
      modifies this
      ensures State() == LoggedOut(old(State()))
    {
      storage := storage - {TokenKey};
      storage := storage - {RefreshTokenKey};
      storage := storage - {UserKey};
      token := None;
      user := None;
      authorization := None;
    }

    /** `refreshToken`, with the endpoint's answer as a parameter. */
    method RefreshToken(reply: RefreshReply) returns (newToken: Option<string>)
      modifies this
      ensures (State(), newToken) == AfterRefresh(old(State()), reply)
    {
      var refreshTokenValue := Get(storage, RefreshTokenKey);
      if !Truthy(refreshTokenValue) {
        Logout();
        return None;
      }
      match reply
      case RefreshFailed =>
        Logout();
        newToken := None;
      case Refreshed(t) =>
        storage := storage[TokenKey := t];
        token := Some(t);
        authorization := Some(Bearer(t));
        newToken := Some(t);
    }
  }

  /** `useAuth`: the provider's value, or the error it throws outside a provider. */
  function UseAuth(context: Option<AuthProvider>): (r: Result<AuthProvider, string>)
    ensures r.Ok? <==> context.Some?
    ensures r.Ok? ==> r.value == context.value
    ensures r.Err? ==> r.error == "useAuth must be used inside AuthProvider"
  {
    match context
    case Some(p) => Ok(p)
    case None => Err("useAuth must be used inside AuthProvider")
  }
}
