/** What the browser components send and what they get back. A component does not run `fetch`:
    it is handed the reply to each request it makes and records the requests, in order, in a log. */
module Client {
  import opened Common
  import opened Api

  /** What a component learns from one `fetch`: either the promise chain threw before the status
      was looked at (the request failed, or a body the component parses first was not JSON), or an
      answer with its status, the `message` field of its body, and the payload it reads on success. */
  datatype Reply<P> = Rejected(reason: string) | Answered(status: int, message: Option<string>, payload: P)

  /** `response.ok`. */
  predicate Ok<P>(r: Reply<P>) {
    r.Answered? && 200 <= r.status <= 299
  }

  /** The message a component shows for a failed step: the thrown error's, or the body's `message`
      when it is truthy, otherwise the component's fallback. What the user reads comes from the
      reply or is the fallback, a server's message is never replaced, and the error box is never
      blank when the fallback is not and a thrown error has a reason. */
  function FailureMessage<P>(r: Reply<P>, fallback: string): (m: string)
    ensures m == fallback || (r.Rejected? && m == r.reason) || (r.Answered? && r.message == Some(m))
    ensures r.Answered? && Present(r.message) ==> m == r.message.value
    ensures fallback != "" && (r.Answered? || r.reason != "") ==> m != ""
  {
    match r
    case Rejected(reason) => reason
    case Answered(_, message, _) => MessageOr(message, fallback)
  }

  /** The body of a `/login` reply. */
  datatype LoginData = LoginData(token: string, user: SessionUser)

  /** The company object `POST /companies` returns, as the registration form reads it. */
  datatype CreatedCompany = CreatedCompany(id: int, name: string)

  /** The `{id, name, inn}` of a search by INN. */
  datatype FoundCompany = FoundCompany(id: int, name: Option<string>, inn: string)

  /** A row of a company's grant history as the operator's form receives it. */
  datatype GrantRecord = GrantRecord(description: string, grantYear: string, grantAmount: string, confirmedAt: string)

  datatype Request =
    | PostRegister(email: string, password: string, role: string)
    | PostCompany(userId: int, name: string, inn: string, fullName: Option<string>, region: Option<string>)
    | DeleteUser(id: int)
    | PostLogin(email: string, password: string)
    | PostSurvey(companyId: int, survey: SurveyPayload)
    | GetCompanyByInn(inn: string, authorization: string)
    | GetGrants(companyId: int, authorization: string)
    | PostConfirmSupport(companyId: int, measureType: string, description: string, grantAmount: string,
                         grantYear: string, authorization: string)

  /** `Bearer ${auth?.token}`: a missing token is written out as `null`. */
  function BearerHeader(token: Option<string>): (h: string)
    ensures StartsWith(h, "Bearer ")
  {
    "Bearer " + (if token.Some? then token.value else "null")
  }

  /** A server that takes the second word of the header reads back the token (one without
      spaces, as the signer issues them), and reads `null` when there was none. */
  lemma BearerHeaderReadBack(token: Option<string>)
    ensures token.Some? && ' ' !in token.value ==> SecondWord(BearerHeader(token)) == token
    ensures token.None? ==> SecondWord(BearerHeader(token)) == Some("null")
  {
    SecondWordOfBearer(if token.Some? && ' ' !in token.value then token.value else "null");
  }
}
