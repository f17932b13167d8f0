/** The Postgres database the three services share, held in memory: one sequence of rows per
    table, one counter per SERIAL id column, and the UNIQUE constraints as the invariant Valid().
    The services read the tables as values and write them field by field. */
module Store {
  import opened Common
  import opened Tables
  import Bcrypt

  datatype User = User(id: int, email: string, passwordHash: Bcrypt.Digest, role: string, createdAt: int)

  /** A row of `companies`. `name` and the other profile columns are nullable because
      `PUT /api/companies/me` writes whatever the body holds, null included. */
  datatype Company = Company(
    id: int,
    userId: int,
    inn: string,
    name: Option<string>,
    fullName: Option<string>,
    foundationYear: Option<int>,
    region: Option<string>,
    description: Option<string>,
    notifyOnNewOrders: Option<bool>,
    websiteUrl: Option<string>,
    itAssociations: Option<string>,
    logoUrl: Option<string>,
    createdAt: int,
    updatedAt: int)

  datatype Contact = Contact(
    companyId: int,
    fullName: Option<string>,
    position: Option<string>,
    phone: Option<string>,
    email: Option<string>,
    updatedAt: int)

  datatype SurveyAnswer = SurveyAnswer(
    companyId: int,
    isAware: Option<bool>,
    mainInterest: Option<seq<string>>,
    usedFederal: Option<seq<string>>,
    usedRegional: Option<seq<string>>,
    startupPlans: Option<string>,
    attractingSpecialists: Option<bool>,
    updatedAt: int)

  /** A row of `operator_confirmed_grants`. */
  datatype Grant = Grant(
    id: int,
    companyId: int,
    measureType: string,
    description: string,
    grantAmount: string,
    grantYear: string,
    confirmedBy: int,
    confirmedAt: int)

  function UserKey(u: User): int { u.id }
  function CompanyKey(c: Company): int { c.id }
  function CompanyOwnerKey(c: Company): int { c.userId }
  function ContactKey(c: Contact): int { c.companyId }
  function SurveyKey(a: SurveyAnswer): int { a.companyId }
  function GrantKey(g: Grant): int { g.id }

  ghost predicate EmailsUnique(users: seq<User>) {
    forall i, j :: 0 <= i < j < |users| ==> users[i].email != users[j].email
  }

  ghost predicate InnsUnique(companies: seq<Company>) {
    forall i, j :: 0 <= i < j < |companies| ==> companies[i].inn != companies[j].inn
  }

  /** The first user with this e-mail: `SELECT * FROM users WHERE email = $1`, `rows[0]`. */
  function UserByEmail(users: seq<User>, email: string): (r: Option<User>)
    ensures r.Some? ==> r.value in users && r.value.email == email
    ensures r.None? <==> forall i :: 0 <= i < |users| ==> users[i].email != email
  {
    if |users| == 0 then None
    else if users[0].email == email then Some(users[0])
    else UserByEmail(users[1..], email)
  }

  /** With unique e-mails, the user found by e-mail is the only one holding it. */
  lemma {:induction false} UserByEmailUnique(users: seq<User>, u: User)
    requires EmailsUnique(users) && u in users
    ensures UserByEmail(users, u.email) == Some(u)
  {
    if users[0] != u {
      assert u in users[1..];
      var k :| 0 <= k < |users| && users[k] == u;
      assert users[0].email != u.email;
      UserByEmailUnique(users[1..], u);
    }
  }

  /** `DELETE FROM users WHERE id = $1`: the rows that remain, in their order. */
  function WithoutUser(users: seq<User>, id: int): (r: seq<User>)
    ensures |r| <= |users|
    ensures forall u :: u in r <==> u in users && u.id != id
    ensures (forall i :: 0 <= i < |users| ==> users[i].id != id) ==> r == users
  {
    if |users| == 0 then []
    else if users[0].id == id then WithoutUser(users[1..], id)
    else [users[0]] + WithoutUser(users[1..], id)
  }

  /** Inserting a user whose e-mail is free and whose id is fresh keeps both columns unique. */
  lemma InsertUserKeepsUnique(users: seq<User>, u: User)
    requires KeyUnique(users, UserKey) && EmailsUnique(users)
    requires UserByEmail(users, u.email).None?
    requires forall v <- users :: v.id < u.id
    ensures KeyUnique(users + [u], UserKey) && EmailsUnique(users + [u])
  {
    var r := users + [u];
    forall i, j | 0 <= i < j < |r| ensures r[i].id != r[j].id && r[i].email != r[j].email {
      if j == |users| {
        assert r[i] == users[i] && r[i] in users;
      }
    }
  }

  /** A delete keeps both unique columns unique. */
  lemma {:induction false} WithoutUserKeepsUnique(users: seq<User>, id: int)
    requires KeyUnique(users, UserKey) && EmailsUnique(users)
    ensures KeyUnique(WithoutUser(users, id), UserKey) && EmailsUnique(WithoutUser(users, id))
  {
    if |users| > 0 {
      var tail := users[1..];
      assert KeyUnique(tail, UserKey) && EmailsUnique(tail) by {
        forall i, j | 0 <= i < j < |tail| ensures tail[i].id != tail[j].id && tail[i].email != tail[j].email {
          assert tail[i] == users[i + 1] && tail[j] == users[j + 1];
        }
      }
      WithoutUserKeepsUnique(tail, id);
      if users[0].id != id {
        var rest := WithoutUser(tail, id);
        var r := [users[0]] + rest;
        forall i, j | 0 <= i < j < |r| ensures r[i].id != r[j].id && r[i].email != r[j].email {
          if i == 0 {
            assert r[j] == rest[j - 1] && rest[j - 1] in tail;
            var k :| 0 <= k < |tail| && tail[k] == r[j];
            assert users[k + 1] == r[j];
          } else {
            assert r[i] == rest[i - 1] && r[j] == rest[j - 1];
          }
        }
      }
    }
  }

  /** The compensating delete of a just-inserted user gives back the table as it was. */
  lemma {:induction false} DeleteUndoesInsert(users: seq<User>, u: User)
    requires forall i :: 0 <= i < |users| ==> users[i].id != u.id
    ensures WithoutUser(users + [u], u.id) == users
  {
    if |users| == 0 {
      assert users + [u] == [u];
    } else {
      assert (users + [u])[1..] == users[1..] + [u];
      DeleteUndoesInsert(users[1..], u);
      assert [users[0]] + users[1..] == users;
    }
  }

  class Database {
    var users: seq<User>
    var companies: seq<Company>
    var contacts: seq<Contact>
    var surveys: seq<SurveyAnswer>
    var grants: seq<Grant>
    /** The next value of each SERIAL sequence. */
    var userSeq: int
    var companySeq: int
    var grantSeq: int

    /** The UNIQUE and primary-key constraints, and every id drawn from its sequence. */
    ghost predicate Valid()
      reads this
    {
      && userSeq >= 1 && companySeq >= 1 && grantSeq >= 1
      && KeyUnique(users, UserKey) && EmailsUnique(users)
      && (forall u <- users :: 1 <= u.id < userSeq)
      && KeyUnique(companies, CompanyKey) && KeyUnique(companies, CompanyOwnerKey) && InnsUnique(companies)
      && (forall c <- companies :: 1 <= c.id < companySeq)
      && KeyUnique(contacts, ContactKey)
      && KeyUnique(surveys, SurveyKey)
      && KeyUnique(grants, GrantKey)
      && (forall g <- grants :: 1 <= g.id < grantSeq)
    }

    constructor ()
      ensures Valid()
      ensures users == [] && companies == [] && contacts == [] && surveys == [] && grants == []
      ensures userSeq == 1 && companySeq == 1 && grantSeq == 1
    {
      users, companies, contacts, surveys, grants := [], [], [], [], [];
      userSeq, companySeq, grantSeq := 1, 1, 1;
    }
  }
}
