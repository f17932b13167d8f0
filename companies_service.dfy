/** The companies service: company creation, the support-survey upsert, and the profile API
    behind `authenticateToken` (`GET` and `PUT /api/companies/me`). */
module CompaniesService {
  import opened Common
  import opened Store
  import opened Tables
  import opened Api
  import Jwt

  const CompanyFieldsRequired := "user_id, name and inn are required"
  const InnTaken := "Компания с таким ИНН уже зарегистрирована."
  const InternalError := "Internal server error"
  const CompanyIdRequired := "Company ID is required."
  const SurveySavedMessage := "Survey data saved successfully"
  const SurveyInternalError := "Internal server error while saving survey data"
  const CompanyNotFoundForUser := "Company not found for this user."
  const CompanyNotFound := "Company not found"

  /** A row of the `GET /api/companies/me` join: the company and its contact's columns, null when
      it has no contact row. */
  datatype CompanyView = CompanyView(
    company: Company,
    contactFullName: Option<string>,
    contactPosition: Option<string>,
    contactPhone: Option<string>,
    contactEmail: Option<string>)

  datatype Body =
    | StatusText(text: string)
    | Message(message: string)
    | CompanyRow(company: Company)
    | SurveySaved(message: string, data: SurveyAnswer)
    | Profile(view: CompanyView)

  datatype Response = Response(status: int, body: Body)

  // ---------------------------------------------------------------------------
  // authenticateToken

  datatype Gate = Denied(response: Response) | Admitted(claims: Jwt.Payload)

  /** `authHeader && authHeader.split(' ')[1]`; None is null or undefined. An empty header is
      falsy, so the expression yields that empty string itself. */
  function BearerToken(header: Option<string>): (r: Option<string>)
    ensures header.None? ==> r.None?
    ensures header == Some("") ==> r == Some("")
    ensures header.Some? && header.value != "" ==> (r.Some? <==> ' ' in header.value)
    ensures r.Some? ==> ' ' !in r.value
  {
    match header
    case None => None
    case Some(h) => if h == "" then Some("") else SecondWord(h)
  }

  /** The middleware: no token is 401, a token that does not verify is 403, otherwise the
      handler runs with the decoded claims. */
  function AuthenticateToken(header: Option<string>, signer: Jwt.Signer): (g: Gate)
    ensures BearerToken(header).None? ==> g == Denied(Response(401, StatusText("Unauthorized")))
    ensures BearerToken(header).Some? && signer.verify(BearerToken(header).value).None? ==>
              g == Denied(Response(403, StatusText("Forbidden")))
    ensures g.Admitted? <==> BearerToken(header).Some? && signer.verify(BearerToken(header).value).Some?
    ensures g.Admitted? ==> signer.verify(BearerToken(header).value) == Some(g.claims)
  {
    match BearerToken(header)
    case None => Denied(Response(401, StatusText("Unauthorized")))
    case Some(t) =>
      match signer.verify(t)
      case None => Denied(Response(403, StatusText("Forbidden")))
      case Some(claims) => Admitted(claims)
  }

  /** A token `/login` issued, sent as `Bearer <token>`, passes the gate with its own claims. */
  lemma IssuedTokenAdmitted(signer: Jwt.Signer, p: Jwt.Payload)
    requires Jwt.Sound(signer)
    ensures AuthenticateToken(Some("Bearer " + signer.sign(p, Jwt.ExpiresIn)), signer) == Admitted(p)
  {
    var t := signer.sign(p, Jwt.ExpiresIn);
    SecondWordOfBearer(t);
  }

  /** A header that holds no space carries no token, and an empty one carries the empty token,
      which never verifies. */
  lemma MalformedHeaders(signer: Jwt.Signer, h: string)
    requires Jwt.Sound(signer) && ' ' !in h
    ensures h != "" ==> AuthenticateToken(Some(h), signer) == Denied(Response(401, StatusText("Unauthorized")))
    ensures AuthenticateToken(Some(""), signer) == Denied(Response(403, StatusText("Forbidden")))
  {
  }

  // ---------------------------------------------------------------------------
  // POST /companies

  datatype NewCompany = NewCompany(
    userId: Option<int>,
    name: Option<string>,
    inn: Option<string>,
    fullName: Option<string>,
    region: Option<string>)

  predicate CompanyFieldsPresent(req: NewCompany) {
    PresentNumber(req.userId) && Present(req.name) && Present(req.inn)
  }

  /** The row `INSERT INTO companies (user_id, name, full_name, inn, region)` creates; the other
      columns take their defaults. */
  function NewCompanyRow(id: int, req: NewCompany, now: int): (c: Company)
    requires CompanyFieldsPresent(req)
    ensures c.id == id && c.userId == req.userId.value && c.inn == req.inn.value
    ensures c.name == req.name && c.fullName == req.fullName && c.region == req.region
  {
    Company(id, req.userId.value, req.inn.value, req.name, req.fullName, None, req.region,
            None, None, None, None, None, now, now)
  }

  /** The UNIQUE constraints an insert of this company would violate. */
  predicate Conflicts(companies: seq<Company>, userId: int, inn: string) {
    exists c <- companies :: c.inn == inn || c.userId == userId
  }

  /** `POST /companies`. `fault` is a query failure other than a unique violation. */
  method CreateCompany(db: Database, req: NewCompany, now: int, fault: bool) returns (resp: Response)
    requires db.Valid()
    modifies db`companies, db`companySeq
    ensures db.Valid()
    ensures !CompanyFieldsPresent(req) ==>
              resp == Response(400, Message(CompanyFieldsRequired)) && db.companies == old(db.companies)
    ensures CompanyFieldsPresent(req) && fault ==>
              resp == Response(500, Message(InternalError)) && db.companies == old(db.companies)
    ensures CompanyFieldsPresent(req) && !fault && Conflicts(old(db.companies), req.userId.value, req.inn.value) ==>
              resp == Response(409, Message(InnTaken)) && db.companies == old(db.companies)
    ensures CompanyFieldsPresent(req) && !fault && !Conflicts(old(db.companies), req.userId.value, req.inn.value) ==>
              var c := NewCompanyRow(old(db.companySeq), req, now);
              db.companies == old(db.companies) + [c] && resp == Response(201, CompanyRow(c))
  {
    if !CompanyFieldsPresent(req) {
      return Response(400, Message(CompanyFieldsRequired));
    }
    if fault {
      return Response(500, Message(InternalError));
    }
    var id := db.companySeq;
    db.companySeq := db.companySeq + 1;
    if Conflicts(db.companies, req.userId.value, req.inn.value) {
      // Postgres raises 23505 (unique_violation) on inn or user_id.
      return Response(409, Message(InnTaken));
    }
    var c := NewCompanyRow(id, req, now);
    InsertCompanyKeepsUnique(db.companies, c);
    db.companies := db.companies + [c];
    resp := Response(201, CompanyRow(c));
  }

  lemma InsertCompanyKeepsUnique(companies: seq<Company>, c: Company)
    requires KeyUnique(companies, CompanyKey) && KeyUnique(companies, CompanyOwnerKey) && InnsUnique(companies)
    requires !Conflicts(companies, c.userId, c.inn)
    requires forall d <- companies :: d.id < c.id
    ensures KeyUnique(companies + [c], CompanyKey) && KeyUnique(companies + [c], CompanyOwnerKey)
    ensures InnsUnique(companies + [c])
  {
    var r := companies + [c];
    forall i, j | 0 <= i < j < |r|
      ensures r[i].id != r[j].id && r[i].userId != r[j].userId && r[i].inn != r[j].inn
    {
      if j == |companies| {
        assert r[i] == companies[i] && r[i] in companies;
      }
    }
  }

  // ---------------------------------------------------------------------------
  // POST /companies/:id/support-survey

  /** The row the upsert writes for this company; a resubmission overwrites all six answers. */
  function SurveyRow(companyId: int, body: SurveyPayload, now: int): (a: SurveyAnswer)
    ensures a.companyId == companyId && a.updatedAt == now
    ensures a.isAware == body.isAware && a.mainInterest == body.mainInterest
    ensures a.usedFederal == body.usedFederal && a.usedRegional == body.usedRegional
    ensures a.startupPlans == body.startupPlans && a.attractingSpecialists == body.attractingSpecialists
  {
    SurveyAnswer(companyId, body.isAware, body.mainInterest, body.usedFederal, body.usedRegional,
                 body.startupPlans, body.attractingSpecialists, now)
  }

  /** `POST /companies/:id/support-survey`. The path segment is cast by Postgres. The 400 for an
      empty id is the handler's own guard: Express never routes a request with an empty `:id`
      segment here, so through the router only the other branches are reached. */
  method SaveSurvey(db: Database, idParam: string, body: SurveyPayload, now: int, fault: bool)
    returns (resp: Response)
    requires db.Valid()
    modifies db`surveys
    ensures db.Valid()
    ensures idParam == "" ==> resp == Response(400, Message(CompanyIdRequired)) && db.surveys == old(db.surveys)
    ensures idParam != "" && (PgInteger(idParam).None? || fault) ==>
              resp == Response(500, Message(SurveyInternalError)) && db.surveys == old(db.surveys)
    ensures idParam != "" && PgInteger(idParam).Some? && !fault ==>
              var row := SurveyRow(PgInteger(idParam).value, body, now);
              db.surveys == Upsert(old(db.surveys), SurveyKey, row)
              && resp == Response(201, SurveySaved(SurveySavedMessage, row))
  {
    if idParam == "" {
      return Response(400, Message(CompanyIdRequired));
    }
    var id := PgInteger(idParam);
    if id.None? || fault {
      return Response(500, Message(SurveyInternalError));
    }
    var row := SurveyRow(id.value, body, now);
    UpsertKeepsKeyUnique(db.surveys, SurveyKey, row);
    db.surveys := Upsert(db.surveys, SurveyKey, row);
    resp := Response(201, SurveySaved(SurveySavedMessage, row));
  }

  /** Two submissions for one company leave one row, holding the later answers. */
  lemma SurveyResubmission(rows: seq<SurveyAnswer>, companyId: int, first: SurveyPayload, second: SurveyPayload,
                           t1: int, t2: int)
    ensures var once := Upsert(rows, SurveyKey, SurveyRow(companyId, first, t1));
            var twice := Upsert(once, SurveyKey, SurveyRow(companyId, second, t2));
            && |twice| == |once|
            && Lookup(twice, SurveyKey, companyId) == Some(SurveyRow(companyId, second, t2))
  {
    var once := Upsert(rows, SurveyKey, SurveyRow(companyId, first, t1));
    UpsertLookup(once, SurveyKey, SurveyRow(companyId, second, t2), companyId);
    UpsertLookup(rows, SurveyKey, SurveyRow(companyId, first, t1), companyId);
  }

  // ---------------------------------------------------------------------------
  // GET /api/companies/me

  /** The company joined with its contact row, if any (`LEFT JOIN company_contacts`). */
  function ViewOf(c: Company, contacts: seq<Contact>): (v: CompanyView)
    ensures v.company == c
    ensures Lookup(contacts, ContactKey, c.id).None? ==>
              v.contactFullName.None? && v.contactPosition.None? && v.contactPhone.None? && v.contactEmail.None?
    ensures Lookup(contacts, ContactKey, c.id).Some? ==>
              var ct := Lookup(contacts, ContactKey, c.id).value;
              ct in contacts && ct.companyId == c.id
              && v.contactFullName == ct.fullName && v.contactPosition == ct.position
              && v.contactPhone == ct.phone && v.contactEmail == ct.email
  {
    match Lookup(contacts, ContactKey, c.id)
    case None => CompanyView(c, None, None, None, None)
    case Some(ct) => CompanyView(c, ct.fullName, ct.position, ct.phone, ct.email)
  }

  /** `GET /api/companies/me`: the caller's own company, found by the token's `userId`. */
  function GetOwnCompany(companies: seq<Company>, contacts: seq<Contact>, header: Option<string>,
                         signer: Jwt.Signer, fault: bool): (r: Response)
    ensures AuthenticateToken(header, signer).Denied? ==> r == AuthenticateToken(header, signer).response
    ensures AuthenticateToken(header, signer).Admitted? && fault ==> r == Response(500, Message(InternalError))
    ensures AuthenticateToken(header, signer).Admitted? && !fault ==>
              var userId := AuthenticateToken(header, signer).claims.userId;
              && (r.status == 404 <==> forall c <- companies :: c.userId != userId)
              && (r.status == 404 ==> r.body == Message(CompanyNotFoundForUser))
              && (r.status != 404 ==> r.status == 200 && r.body.Profile? && r.body.view.company in companies
                                      && r.body.view.company.userId == userId
                                      && r.body.view == ViewOf(r.body.view.company, contacts))
  {
    match AuthenticateToken(header, signer)
    case Denied(response) => response
    case Admitted(claims) =>
      if fault then Response(500, Message(InternalError))
      else match Lookup(companies, CompanyOwnerKey, claims.userId)
        case None => Response(404, Message(CompanyNotFoundForUser))
        case Some(c) => Response(200, Profile(ViewOf(c, contacts)))
  }

  // ---------------------------------------------------------------------------
  // PUT /api/companies/me

  /** The body of `PUT /api/companies/me`; a missing field is written as NULL. */
  datatype ProfileUpdate = ProfileUpdate(
    name: Option<string>,
    fullName: Option<string>,
    foundationYear: Option<int>,
    region: Option<string>,
    description: Option<string>,
    notifyOnNewOrders: Option<bool>,
    websiteUrl: Option<string>,
    itAssociations: Option<string>,
    logoUrl: Option<string>,
    contactFullName: Option<string>,
    contactPosition: Option<string>,
    contactPhone: Option<string>,
    contactEmail: Option<string>)

  /** The `UPDATE companies SET ...` of the nine profile columns and `updated_at = NOW()`. */
  function ApplyProfile(c: Company, u: ProfileUpdate, now: int): (r: Company)
    ensures r.id == c.id && r.userId == c.userId && r.inn == c.inn && r.createdAt == c.createdAt
    ensures r.name == u.name && r.fullName == u.fullName && r.foundationYear == u.foundationYear
    ensures r.region == u.region && r.description == u.description
    ensures r.notifyOnNewOrders == u.notifyOnNewOrders && r.websiteUrl == u.websiteUrl
    ensures r.itAssociations == u.itAssociations && r.logoUrl == u.logoUrl
    ensures r.updatedAt == now
  {
    c.(name := u.name, fullName := u.fullName, foundationYear := u.foundationYear, region := u.region,
       description := u.description, notifyOnNewOrders := u.notifyOnNewOrders, websiteUrl := u.websiteUrl,
       itAssociations := u.itAssociations, logoUrl := u.logoUrl, updatedAt := now)
  }

  /** The contact row the upsert writes. */
  function ContactRow(companyId: int, u: ProfileUpdate, now: int): (c: Contact)
    ensures ContactKey(c) == companyId && c.updatedAt == now
    ensures c.fullName == u.contactFullName && c.position == u.contactPosition
    ensures c.phone == u.contactPhone && c.email == u.contactEmail
  {
    Contact(companyId, u.contactFullName, u.contactPosition, u.contactPhone, u.contactEmail, now)
  }

  /** Where the database reports an error inside the transaction, if anywhere. */
  datatype TxFault = NoFault | AtBegin | AtSelect | AtUpdate | AtUpsert | AtCommit

  /** `PUT /api/companies/me`. BEGIN takes the state a ROLLBACK returns to; the company update and
      the contact upsert are kept only by COMMIT. */
  method UpdateOwnCompany(db: Database, header: Option<string>, signer: Jwt.Signer, body: ProfileUpdate,
                          now: int, fault: TxFault) returns (resp: Response)
    requires db.Valid()
    modifies db`companies, db`contacts
    ensures db.Valid()
    ensures AuthenticateToken(header, signer).Denied? ==> resp == AuthenticateToken(header, signer).response
    // Both writes happen, or neither does.
    ensures resp.status != 200 ==> db.companies == old(db.companies) && db.contacts == old(db.contacts)
    ensures AuthenticateToken(header, signer).Admitted? ==>
              var userId := AuthenticateToken(header, signer).claims.userId;
              var i := IndexOfKey(old(db.companies), CompanyOwnerKey, userId);
              && (fault in {AtBegin, AtSelect} ==> resp == Response(500, Message(InternalError)))
              && (fault !in {AtBegin, AtSelect} && i.None? ==> resp == Response(404, Message(CompanyNotFound)))
              && (fault in {AtUpdate, AtUpsert, AtCommit} && i.Some? ==> resp == Response(500, Message(InternalError)))
              && (fault == NoFault && i.Some? ==>
                    var updated := ApplyProfile(old(db.companies)[i.value], body, now);
                    && db.companies == old(db.companies)[i.value := updated]
                    && db.contacts == Upsert(old(db.contacts), ContactKey, ContactRow(updated.id, body, now))
                    && resp == Response(200, CompanyRow(updated)))
  {
    var gate := AuthenticateToken(header, signer);
    if gate.Denied? {
      return gate.response;
    }
    var userId := gate.claims.userId;
    if fault == AtBegin {
      return Response(500, Message(InternalError));
    }
    // BEGIN
    var companiesAtBegin, contactsAtBegin := db.companies, db.contacts;
    if fault == AtSelect {
      return Response(500, Message(InternalError));
    }
    var i := IndexOfKey(db.companies, CompanyOwnerKey, userId);
    if i.None? {
      // Returns inside the open transaction; nothing has been written.
      return Response(404, Message(CompanyNotFound));
    }
    var companyId := db.companies[i.value].id;
    if fault == AtUpdate {
      return Response(500, Message(InternalError));
    }
    var updated := ApplyProfile(db.companies[i.value], body, now);
    db.companies := db.companies[i.value := updated];
    if fault == AtUpsert {
      // ROLLBACK
      db.companies, db.contacts := companiesAtBegin, contactsAtBegin;
      return Response(500, Message(InternalError));
    }
    var contact := ContactRow(companyId, body, now);
    UpsertKeepsKeyUnique(db.contacts, ContactKey, contact);
    db.contacts := Upsert(db.contacts, ContactKey, contact);
    if fault == AtCommit {
      // A failed COMMIT keeps nothing; the handler's ROLLBACK confirms it.
      db.companies, db.contacts := companiesAtBegin, contactsAtBegin;
      return Response(500, Message(InternalError));
    }
    // COMMIT
    resp := Response(200, CompanyRow(updated));
  }

  /** After a committed `PUT /me`, `GET /me` with the same token shows the new profile and contact. */
  lemma ReadAfterUpdate(companies: seq<Company>, contacts: seq<Contact>, userId: int, body: ProfileUpdate, now: int)
    requires KeyUnique(companies, CompanyOwnerKey)
    requires IndexOfKey(companies, CompanyOwnerKey, userId).Some?
    ensures var i := IndexOfKey(companies, CompanyOwnerKey, userId).value;
            var updated := ApplyProfile(companies[i], body, now);
            var after := companies[i := updated];
            var contactsAfter := Upsert(contacts, ContactKey, ContactRow(updated.id, body, now));
            && Lookup(after, CompanyOwnerKey, userId) == Some(updated)
            && ViewOf(updated, contactsAfter)
               == CompanyView(updated, body.contactFullName, body.contactPosition, body.contactPhone, body.contactEmail)
  {
    var i := IndexOfKey(companies, CompanyOwnerKey, userId).value;
    var updated := ApplyProfile(companies[i], body, now);
    var after := companies[i := updated];
    FirstMatch(after, CompanyOwnerKey, userId, i);
    UpsertLookup(contacts, ContactKey, ContactRow(updated.id, body, now), updated.id);
  }
}
