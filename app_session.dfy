/** The application shell: the session kept in `AuthContext` and in `localStorage`, and the
    routing done after a login and a logout. */
module AppSession {
  import opened Common
  import opened Api

  const TokenKey := "token"
  const UserKey := "user"
  const OperatorRole := "operator"

  /** What `JSON.parse` makes of a stored user: a syntax error, or a value (None is JSON null). */
  datatype Parsed = SyntaxError | Value(user: Option<SessionUser>)

  /** `JSON.stringify` and `JSON.parse` on the session user. */
  datatype Codec = Codec(stringify: SessionUser -> string, parse: string -> Parsed)

  /** A stored user reads back as itself, and its text is never empty. */
  ghost predicate Sound(c: Codec) {
    forall u: SessionUser :: c.parse(c.stringify(u)) == Value(Some(u)) && c.stringify(u) != ""
  }

  /** `localStorage.getItem(key)`. */
  function Get(storage: map<string, string>, key: string): (r: Option<string>)
    ensures r.Some? <==> key in storage
    ensures r.Some? ==> r.value == storage[key]
  {
    if key in storage then Some(storage[key]) else None
  }

  /** What `setItem` and `removeItem` do to a later `getItem`: the key written reads back its
      value, the key removed reads back nothing, and every other key reads as before. */
  lemma StorageReadBack(storage: map<string, string>, key: string, value: string, other: string)
    requires other != key
    ensures Get(storage[key := value], key) == Some(value)
    ensures Get(storage - {key}, key) == None
    ensures Get(storage[key := value], other) == Get(storage, other)
    ensures Get(storage - {key}, other) == Get(storage, other)
  {
  }

  /** The page a user lands on after logging in. */
  function LandingPath(role: string): (p: string)
    ensures p == "/operator" <==> role == OperatorRole
    ensures p != "/operator" ==> p == "/profile"
  {
    if role == OperatorRole then "/operator" else "/profile"
  }

  class AuthSession {
    var token: Option<string>
    var user: Option<SessionUser>
    /** The browser's `localStorage`. */
    var storage: map<string, string>
    const codec: Codec

    /** The state before the startup effect runs. */
    constructor (storage: map<string, string>, codec: Codec)
      ensures token == None && user == None
      ensures this.storage == storage && this.codec == codec
    {
      token, user := None, None;
      this.storage, this.codec := storage, codec;
    }

    /** `login`: persist both values, then hold them. */
    method Login(t: string, u: SessionUser)
      modifies this`token, this`user, this`storage
      ensures storage == old(storage)[TokenKey := t][UserKey := codec.stringify(u)]
      ensures token == Some(t) && user == Some(u)
    {
      storage := storage[TokenKey := t];
      storage := storage[UserKey := codec.stringify(u)];
      token, user := Some(t), Some(u);
    }

    /** `logout`: forget both values, in memory and in storage. */
    method Logout()
      modifies this`token, this`user, this`storage
      ensures storage == old(storage) - {TokenKey, UserKey}
      ensures token == None && user == None
    {
      storage := storage - {TokenKey};
      storage := storage - {UserKey};
      token, user := None, None;
      assert storage == old(storage) - {TokenKey, UserKey};
    }

    /** The startup effect: a session is restored only when both keys hold truthy text; a user that
        does not parse removes both keys. */
    method Restore()
      modifies this`token, this`user, this`storage
      ensures var t := Get(old(storage), TokenKey);
              var s := Get(old(storage), UserKey);
              if Present(t) && Present(s) then
                match codec.parse(s.value)
                case SyntaxError =>
                  storage == old(storage) - {TokenKey, UserKey} && token == old(token) && user == old(user)
                case Value(v) => token == t && user == v && storage == old(storage)
              else token == old(token) && user == old(user) && storage == old(storage)
    {
      var storedToken := Get(storage, TokenKey);
      var storedUser := Get(storage, UserKey);
      if Present(storedToken) && Present(storedUser) {
        match codec.parse(storedUser.value)
        case SyntaxError =>
          storage := storage - {TokenKey};
          storage := storage - {UserKey};
          assert storage == old(storage) - {TokenKey, UserKey};
        case Value(parsedUser) =>
          token := storedToken;
          user := parsedUser;
      }
    }
  }

  /** A session survives a reload: the storage a login leaves restores the same token and user. */
  method ReloadAfterLogin(storage: map<string, string>, codec: Codec, t: string, u: SessionUser)
    returns (reloaded: AuthSession)
    requires Sound(codec) && t != ""
    ensures reloaded.token == Some(t) && reloaded.user == Some(u)
  {
    var session := new AuthSession(storage, codec);
    session.Login(t, u);
    reloaded := new AuthSession(session.storage, codec);
    reloaded.Restore();
  }

  /** After a logout nothing is restored on reload. */
  method ReloadAfterLogout(session: AuthSession) returns (reloaded: AuthSession)
    modifies session
    ensures reloaded.token == None && reloaded.user == None
    ensures TokenKey !in reloaded.storage && UserKey !in reloaded.storage
  {
    session.Logout();
    reloaded := new AuthSession(session.storage, session.codec);
    reloaded.Restore();
  }

  /** `AppContent`: the login modal and the current route. */
  class AppContent {
    var isModalOpen: bool
    var path: string
    const auth: AuthSession

    constructor (auth: AuthSession, path: string)
      ensures !isModalOpen && this.path == path && this.auth == auth
    {
      isModalOpen, this.path, this.auth := false, path, auth;
    }

    /** The header's login button. */
    method OpenLoginModal()
      modifies this`isModalOpen
      ensures isModalOpen
    {
      isModalOpen := true;
    }

    /** `handleLoginSuccess`: log in, close the modal, route by role. */
    method HandleLoginSuccess(t: string, u: SessionUser)
      modifies this`isModalOpen, this`path, auth
      ensures auth.storage == old(auth.storage)[TokenKey := t][UserKey := auth.codec.stringify(u)]
      ensures auth.token == Some(t) && auth.user == Some(u)
      ensures !isModalOpen && path == LandingPath(u.role)
    {
      auth.Login(t, u);
      isModalOpen := false;
      if u.role == OperatorRole {
        path := "/operator";
      } else {
        path := "/profile";
      }
    }

    /** `handleLogout`: log out, then go home. */
    method HandleLogout()
      modifies this`path, auth
      ensures auth.storage == old(auth.storage) - {TokenKey, UserKey}
      ensures auth.token == None && auth.user == None
      ensures path == "/" && isModalOpen == old(isModalOpen)
    {
      auth.Logout();
      path := "/";
    }
  }
}
