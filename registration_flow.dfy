/** The supplier registration form run against the users and companies services: each request
    the form sends is answered by the service model, over one database. */
module RegistrationFlow {
  import opened Common
  import opened Api
  import opened Client
  import opened Store
  import Bcrypt
  import Jwt
  import UsersService
  import CompaniesService
  import SupplierRegistration

  /** The `message` field of a users-service body. */
  function UsersMessage(b: UsersService.Body): (m: Option<string>)
    ensures m.Some?
  {
    match b
    case Message(m) => Some(m)
    case Registered(m, _) => Some(m)
    case LoggedIn(m, _, _) => Some(m)
  }

  /** What the form reads from a `/register` response: the new user's id. */
  function RegisterReplyOf(r: UsersService.Response): Reply<int> {
    Answered(r.status, UsersMessage(r.body), if r.body.Registered? then r.body.created.id else 0)
  }

  /** What the form reads from a `/login` response: the token and the user. */
  function LoginReplyOf(r: UsersService.Response): Reply<LoginData> {
    Answered(r.status, UsersMessage(r.body),
             if r.body.LoggedIn? then LoginData(r.body.token, r.body.user) else LoginData("", SessionUser(0, "")))
  }

  /** What the form reads from a `POST /companies` response: the row's id and name. */
  function CompanyReplyOf(r: CompaniesService.Response): Reply<CreatedCompany> {
    match r.body
    case CompanyRow(c) => Answered(r.status, None, CreatedCompany(c.id, if c.name.Some? then c.name.value else ""))
    case Message(m) => Answered(r.status, Some(m), CreatedCompany(0, ""))
    case _ => Answered(r.status, None, CreatedCompany(0, ""))
  }

  /** The body `POST /companies` receives for the form's request. */
  function CompanyBody(r: Request): CompaniesService.NewCompany
    requires r.PostCompany?
  {
    CompaniesService.NewCompany(Some(r.userId), Some(r.name), Some(r.inn), r.fullName, r.region)
  }

  /** The company step for a user just inserted: create the company, or delete the user when the
      database refuses it. */
  method CreateOrUndo(db: Database, before: seq<User>, u: User, inn: string, now: int)
    returns (companyReply: Reply<CreatedCompany>, deleteReply: Reply<()>)
    requires db.Valid() && db.users == before + [u] && u.id >= 1
    requires forall i :: 0 <= i < |before| ==> before[i].id != u.id
    requires inn != ""
    modifies db
    ensures db.Valid()
    ensures CompaniesService.Conflicts(old(db.companies), u.id, inn) ==>
              && companyReply == Answered(409, Some(CompaniesService.InnTaken), CreatedCompany(0, ""))
              && deleteReply.Answered?
              && db.users == before && db.companies == old(db.companies)
    ensures !CompaniesService.Conflicts(old(db.companies), u.id, inn) ==>
              && companyReply == Answered(201, None, CreatedCompany(old(db.companySeq), SupplierRegistration.CompanyName(inn)))
              && db.users == old(db.users)
              && |db.companies| == |old(db.companies)| + 1
              && db.companies[|db.companies| - 1].id == old(db.companySeq)
              && db.companies[|db.companies| - 1].userId == u.id
              && db.companies[|db.companies| - 1].inn == inn
  {
    var created := CompaniesService.CreateCompany(db, CompanyBody(SupplierRegistration.CompanyRequest(u.id, inn)), now, false);
    companyReply := CompanyReplyOf(created);
    deleteReply := Rejected("");
    if created.status != 201 {
      var idText := IntString(u.id);
      PgIntegerOfIntString(u.id);
      assert PgInteger(idText) == Some(u.id);
      var deleted := UsersService.DeleteUser(db, idText, false);
      DeleteUndoesInsert(before, u);
      deleteReply := Answered(deleted.status, None, ());
    }
  }

  /** The services' side of one submission: the replies the form receives, in the order it sends
      the requests, and what they do to the database. */
  method Serve(db: Database, email: string, password: string, inn: string, hasher: Bcrypt.Hasher,
               signer: Jwt.Signer, entropy: string, now: int)
    returns (registerReply: Reply<int>, companyReply: Reply<CreatedCompany>, deleteReply: Reply<()>,
             loginReply: Reply<LoginData>)
    requires db.Valid() && Bcrypt.Sound(hasher)
    requires email != "" && password != "" && inn != ""
    modifies db
    ensures db.Valid()
    ensures UserByEmail(old(db.users), email).Some? ==>
              && registerReply == Answered(409, Some(UsersService.EmailTaken), 0)
              && db.users == old(db.users) && db.companies == old(db.companies)
    ensures UserByEmail(old(db.users), email).None? ==> Ok(registerReply) && registerReply.payload == old(db.userSeq)
    ensures UserByEmail(old(db.users), email).None? && CompaniesService.Conflicts(old(db.companies), old(db.userSeq), inn) ==>
              && companyReply == Answered(409, Some(CompaniesService.InnTaken), CreatedCompany(0, ""))
              && deleteReply.Answered?
              && db.users == old(db.users) && db.companies == old(db.companies)
    ensures UserByEmail(old(db.users), email).None? && !CompaniesService.Conflicts(old(db.companies), old(db.userSeq), inn) ==>
              && companyReply == Answered(201, None, CreatedCompany(old(db.companySeq), SupplierRegistration.CompanyName(inn)))
              && |db.users| == |old(db.users)| + 1 && db.users[|db.users| - 1].id == old(db.userSeq)
              && |db.companies| == |old(db.companies)| + 1
              && db.companies[|db.companies| - 1].id == old(db.companySeq)
              && db.companies[|db.companies| - 1].userId == old(db.userSeq)
              && db.companies[|db.companies| - 1].inn == inn
              && (!StartsWith(inn, SupplierRegistration.RegionPrefix) ==>
                    loginReply == Answered(200, Some(UsersService.LoggedInMessage),
                                           LoginData(signer.sign(Jwt.Payload(old(db.userSeq), SupplierRegistration.SupplierRole, old(db.userSeq)),
                                                                 Jwt.ExpiresIn),
                                                     SessionUser(old(db.userSeq), SupplierRegistration.SupplierRole))))
  {
    var before, companiesBefore := db.users, db.companies;
    var req := UsersService.RegisterRequest(Some(email), Some(password), Some(SupplierRegistration.SupplierRole));
    assert UsersService.Admissible(req);
    var registered := UsersService.Register(db, req, hasher, entropy, now, false);
    registerReply := RegisterReplyOf(registered);
    companyReply, deleteReply, loginReply := Rejected(""), Rejected(""), Rejected("");
    if UserByEmail(before, email).Some? {
      return;
    }
    var u := db.users[|db.users| - 1];
    assert db.users == before + [u];
    assert forall i :: 0 <= i < |before| ==> before[i].id != u.id by {
      assert forall i :: 0 <= i < |before| ==> before[i] in old(db.users);
    }
    companyReply, deleteReply := CreateOrUndo(db, before, u, inn, now);
    if !CompaniesService.Conflicts(companiesBefore, u.id, inn) && !StartsWith(inn, SupplierRegistration.RegionPrefix) {
      UsersService.LoginAfterRegister(db.users, u, password, Bcrypt.Salt(Bcrypt.SaltRounds, entropy), hasher, signer);
      loginReply := LoginReplyOf(UsersService.Login(db.users, UsersService.LoginRequest(Some(email), Some(password)), hasher, signer, false));
    }
  }

  /** One submission of a filled-in form. A company refused by the database is undone: the users
      table is as before. A registration for region 52 shows the survey; any other logs in as the
      new supplier. */
  method SignUpSupplier(db: Database, form: SupplierRegistration.RegisterSupplierForm, hasher: Bcrypt.Hasher,
                        signer: Jwt.Signer, entropy: string, now: int)
    requires db.Valid() && Bcrypt.Sound(hasher)
    requires form.email != "" && form.password != "" && form.inn != ""
    requires form.password == form.passwordConfirm && form.agreed
    modifies db, form
    ensures db.Valid()
    // An e-mail already registered stops the flow with the service's message.
    ensures UserByEmail(old(db.users), form.email).Some? ==>
              && db.users == old(db.users) && db.companies == old(db.companies)
              && form.error == UsersService.EmailTaken
    // A refused company is compensated.
    ensures UserByEmail(old(db.users), form.email).None? && CompaniesService.Conflicts(old(db.companies), old(db.userSeq), form.inn) ==>
              && db.users == old(db.users) && db.companies == old(db.companies)
              && form.error == CompaniesService.InnTaken
    ensures UserByEmail(old(db.users), form.email).None? && !CompaniesService.Conflicts(old(db.companies), old(db.userSeq), form.inn) ==>
              && |db.users| == |old(db.users)| + 1 && |db.companies| == |old(db.companies)| + 1
              && db.companies[|db.companies| - 1].userId == old(db.userSeq)
              && form.createdCompany == Some(CreatedCompany(old(db.companySeq), SupplierRegistration.CompanyName(form.inn)))
              && (StartsWith(form.inn, SupplierRegistration.RegionPrefix) ==>
                    form.ShowsSurvey() && form.loginCalls == old(form.loginCalls))
              && (!StartsWith(form.inn, SupplierRegistration.RegionPrefix) ==>
                    && form.error == ""
                    && form.loginCalls == old(form.loginCalls)
                                          + [LoginData(signer.sign(Jwt.Payload(old(db.userSeq), SupplierRegistration.SupplierRole, old(db.userSeq)),
                                                                   Jwt.ExpiresIn),
                                                       SessionUser(old(db.userSeq), SupplierRegistration.SupplierRole))])
  {
    var registerReply, companyReply, deleteReply, loginReply :=
      Serve(db, form.email, form.password, form.inn, hasher, signer, entropy, now);
    form.HandleSubmit(registerReply, companyReply, deleteReply, loginReply);
  }
}
