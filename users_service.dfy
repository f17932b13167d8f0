/** The users service: `POST /register`, `POST /login` and the internal `DELETE /users/:id`
    that the supplier registration uses to undo a registration. */
module UsersService {
  import opened Common
  import opened Store
  import opened Api
  import Bcrypt
  import Jwt

  /** The roles `/register` accepts. */
  const Roles: set<string> := {"customer", "supplier", "operator"}

  const MissingRegisterFields := "Email, password and role are required"
  const InvalidRole := "Invalid role specified"
  const Created := "User created successfully"
  const EmailTaken := "Этот e-mail уже зарегистрирован. Попробуйте другой."
  const InternalError := "Internal server error"
  const MissingLoginFields := "Email and password are required"
  const InvalidCredentials := "Invalid credentials"
  const LoggedInMessage := "Logged in successfully"
  const UserNotFound := "User not found for deletion"
  const UserDeleted := "User deleted successfully"

  datatype RegisterRequest = RegisterRequest(email: Option<string>, password: Option<string>, role: Option<string>)
  datatype LoginRequest = LoginRequest(email: Option<string>, password: Option<string>)

  /** The columns `RETURNING id, email, role, created_at` gives back: never the hash. */
  datatype PublicUser = PublicUser(id: int, email: string, role: string, createdAt: int)

  datatype Body =
    | Message(message: string)
    | Registered(message: string, created: PublicUser)
    | LoggedIn(message: string, token: string, user: SessionUser)

  datatype Response = Response(status: int, body: Body)

  /** The fields `/register` requires and a role from the closed set. */
  predicate Admissible(req: RegisterRequest) {
    Present(req.email) && Present(req.password) && Present(req.role) && req.role.value in Roles
  }

  /** The row an admitted registration inserts: the password only as its salted hash. */
  function NewUser(id: int, req: RegisterRequest, hasher: Bcrypt.Hasher, salt: Bcrypt.Salt, now: int): (u: User)
    requires Admissible(req)
    ensures u.id == id && u.email == req.email.value && u.role == req.role.value && u.createdAt == now
    ensures Bcrypt.Sound(hasher) ==> hasher.compare(req.password.value, u.passwordHash)
  {
    User(id, req.email.value, hasher.hash(req.password.value, salt), req.role.value, now)
  }

  /** `POST /register`. `entropy` is what `bcrypt.genSalt(10)` draws, `now` the insert's time, and
      `fault` a failure of bcrypt or of the query other than a unique violation. */
  method Register(db: Database, req: RegisterRequest, hasher: Bcrypt.Hasher, entropy: string, now: int, fault: bool)
    returns (resp: Response)
    requires db.Valid()
    modifies db`users, db`userSeq
    ensures db.Valid()
    ensures !(Present(req.email) && Present(req.password) && Present(req.role)) ==>
              resp == Response(400, Message(MissingRegisterFields)) && db.users == old(db.users)
    ensures Present(req.email) && Present(req.password) && Present(req.role) && req.role.value !in Roles ==>
              resp == Response(400, Message(InvalidRole)) && db.users == old(db.users)
    ensures Admissible(req) && fault ==>
              resp == Response(500, Message(InternalError)) && db.users == old(db.users)
    ensures Admissible(req) && !fault && UserByEmail(old(db.users), req.email.value).Some? ==>
              resp == Response(409, Message(EmailTaken)) && db.users == old(db.users)
    ensures Admissible(req) && !fault && UserByEmail(old(db.users), req.email.value).None? ==>
              var u := NewUser(old(db.userSeq), req, hasher, Bcrypt.Salt(Bcrypt.SaltRounds, entropy), now);
              && db.users == old(db.users) + [u]
              && resp == Response(201, Registered(Created, PublicUser(u.id, u.email, u.role, u.createdAt)))
    ensures resp.status != 201 ==> db.users == old(db.users)
  {
    if !(Present(req.email) && Present(req.password) && Present(req.role)) {
      return Response(400, Message(MissingRegisterFields));
    }
    if req.role.value !in Roles {
      return Response(400, Message(InvalidRole));
    }
    if fault {
      return Response(500, Message(InternalError));
    }
    var salt := Bcrypt.Salt(Bcrypt.SaltRounds, entropy);
    var passwordHash := hasher.hash(req.password.value, salt);
    // INSERT ... RETURNING: the id is drawn from the sequence before the UNIQUE check, so a
    // rejected insert still consumes it.
    var id := db.userSeq;
    db.userSeq := db.userSeq + 1;
    if UserByEmail(db.users, req.email.value).Some? {
      // Postgres raises 23505 (unique_violation), which the handler maps to 409.
      return Response(409, Message(EmailTaken));
    }
    var u := User(id, req.email.value, passwordHash, req.role.value, now);
    InsertUserKeepsUnique(db.users, u);
    db.users := db.users + [u];
    resp := Response(201, Registered(Created, PublicUser(u.id, u.email, u.role, u.createdAt)));
  }

  /** `POST /login`. `fault` is a failure of the query, of bcrypt or of signing. */
  function Login(users: seq<User>, req: LoginRequest, hasher: Bcrypt.Hasher, signer: Jwt.Signer, fault: bool): (r: Response)
    ensures !(Present(req.email) && Present(req.password)) ==> r == Response(400, Message(MissingLoginFields))
    ensures Present(req.email) && Present(req.password) && fault ==> r == Response(500, Message(InternalError))
    // An unknown e-mail and a wrong password give the same answer.
    ensures Present(req.email) && Present(req.password) && !fault ==>
              var found := UserByEmail(users, req.email.value);
              (found.None? || !hasher.compare(req.password.value, found.value.passwordHash)) ==>
                r == Response(401, Message(InvalidCredentials))
    ensures r.status == 200 <==>
              && Present(req.email) && Present(req.password) && !fault
              && UserByEmail(users, req.email.value).Some?
              && hasher.compare(req.password.value, UserByEmail(users, req.email.value).value.passwordHash)
    ensures r.status == 200 ==>
              exists u :: u in users && u.email == req.email.value
                && r.body == LoggedIn(LoggedInMessage,
                                      signer.sign(Jwt.Payload(u.id, u.role, u.id), Jwt.ExpiresIn),
                                      SessionUser(u.id, u.role))
  {
    if !(Present(req.email) && Present(req.password)) then Response(400, Message(MissingLoginFields))
    else if fault then Response(500, Message(InternalError))
    else match UserByEmail(users, req.email.value)
      case None => Response(401, Message(InvalidCredentials))
      case Some(u) =>
        if !hasher.compare(req.password.value, u.passwordHash) then Response(401, Message(InvalidCredentials))
        else
          var payload := Jwt.Payload(u.id, u.role, u.id);
          Response(200, LoggedIn(LoggedInMessage, signer.sign(payload, Jwt.ExpiresIn), SessionUser(u.id, u.role)))
  }

  /** Logging in with the password a user registered with succeeds, as that user. */
  lemma LoginAfterRegister(users: seq<User>, u: User, password: string, salt: Bcrypt.Salt,
                           hasher: Bcrypt.Hasher, signer: Jwt.Signer)
    requires EmailsUnique(users) && u in users && Bcrypt.Sound(hasher)
    requires u.email != "" && password != ""
    requires u.passwordHash == hasher.hash(password, salt)
    ensures Login(users, LoginRequest(Some(u.email), Some(password)), hasher, signer, false)
         == Response(200, LoggedIn(LoggedInMessage, signer.sign(Jwt.Payload(u.id, u.role, u.id), Jwt.ExpiresIn),
                                   SessionUser(u.id, u.role)))
  {
    UserByEmailUnique(users, u);
  }

  /** `DELETE /users/:id`. `fault` is a failure of the query; a path segment Postgres cannot read
      as an integer fails it too. */
  method DeleteUser(db: Database, idParam: string, fault: bool) returns (resp: Response)
    requires db.Valid()
    modifies db`users
    ensures db.Valid()
    ensures PgInteger(idParam).None? || fault ==>
              resp == Response(500, Message(InternalError)) && db.users == old(db.users)
    ensures PgInteger(idParam).Some? && !fault ==>
              var id := PgInteger(idParam).value;
              && db.users == WithoutUser(old(db.users), id)
              && (if exists u <- old(db.users) :: u.id == id
                  then resp == Response(200, Message(UserDeleted))
                  else resp == Response(404, Message(UserNotFound)))
  {
    var id := PgInteger(idParam);
    if id.None? || fault {
      return Response(500, Message(InternalError));
    }
    var remaining := WithoutUser(db.users, id.value);
    var rowCount := |db.users| - |remaining|;
    WithoutUserKeepsUnique(db.users, id.value);
    db.users := remaining;
    if rowCount == 0 {
      assert forall u <- old(db.users) :: u.id != id.value by {
        if exists u <- old(db.users) :: u.id == id.value {
          var u :| u in old(db.users) && u.id == id.value;
          RemovingShrinks(old(db.users), id.value, u);
        }
      }
      return Response(404, Message(UserNotFound));
    }
    resp := Response(200, Message(UserDeleted));
  }

  /** Removing a row that is there leaves fewer rows. */
  lemma {:induction false} RemovingShrinks(users: seq<User>, id: int, u: User)
    requires u in users && u.id == id
    ensures |WithoutUser(users, id)| < |users|
  {
    if users[0] != u {
      assert u in users[1..];
      RemovingShrinks(users[1..], id, u);
    }
  }

  /** A registration followed by a login with the same credentials: the session is the new
      user's, with the role it registered. */
  method RegisterThenLogin(db: Database, email: string, password: string, role: string,
                           hasher: Bcrypt.Hasher, signer: Jwt.Signer, entropy: string, now: int)
    returns (registered: Response, login: Response)
    requires db.Valid() && Bcrypt.Sound(hasher)
    requires email != "" && password != "" && role in Roles
    requires UserByEmail(db.users, email).None?
    modifies db`users, db`userSeq
    ensures registered.status == 201 && registered.body.Registered?
    ensures login.status == 200 && login.body.LoggedIn?
    ensures login.body.user == SessionUser(registered.body.created.id, role)
  {
    registered := Register(db, RegisterRequest(Some(email), Some(password), Some(role)), hasher, entropy, now, false);
    var u := db.users[|db.users| - 1];
    LoginAfterRegister(db.users, u, password, Bcrypt.Salt(Bcrypt.SaltRounds, entropy), hasher, signer);
    login := Login(db.users, LoginRequest(Some(email), Some(password)), hasher, signer, false);
  }
}
