/** `ConfirmSupportModal`: the operator's form that finds a company by INN, shows its grant
    history and confirms one federal support measure for it. */
module ConfirmSupport {
  import opened Common
  import opened Client
  import opened AppSession

  /** The measures the form offers, one radio button each. */
  const FederalSupportMeasures: seq<string> := [
    "Получена ИТ-аккредитация Минцифры РФ",
    "Получен грант Фонда содействия инновациям (ФСИ)",
    "Получен грант Фонда \"Сколково\"",
    "Получен грант РФРИТ"
  ]

  const InnRequired := "Для поиска необходимо ввести ИНН компании."
  const AccessDenied := "Доступ запрещен. Пожалуйста, войдите в систему заново."
  const ServerErrorPrefix := "Ошибка сервера: "
  const FieldsRequired := "Заполните все обязательные поля*"
  const FederalMeasureType := "federal"

  /** The message of a failed answer other than 403: the body is never shown, only the status,
      which can be read back from what follows the prefix. */
  function ServerError(status: int): (m: string)
    ensures StartsWith(m, ServerErrorPrefix) && |m| > |ServerErrorPrefix|
    ensures ParseInt(m[|ServerErrorPrefix|..]) == Some(status)
  {
    ParseIntString(status);
    assert (ServerErrorPrefix + IntString(status))[|ServerErrorPrefix|..] == IntString(status);
    ServerErrorPrefix + IntString(status)
  }

  /** Different statuses are reported with different messages. */
  lemma ServerErrorInjective(a: int, b: int)
    requires ServerError(a) == ServerError(b)
    ensures a == b
  {
    assert Some(a) == ParseInt(ServerError(a)[|ServerErrorPrefix|..]);
  }

  class ConfirmSupportModal {
    var inn: string
    var foundCompany: Option<FoundCompany>
    var grantsHistory: seq<GrantRecord>
    var isHistoryVisible: bool
    var selectedMeasure: string
    var grantYear: string
    var grantAmount: string
    var loading: bool
    var error: string
    var validationError: string
    const auth: AuthSession
    /** The requests sent, in order. */
    var sent: seq<Request>
    /** How many times `onSuccess` and `onClose` were called. */
    var successCalls: nat
    var closeCalls: nat

    /** Every field at the value `useState` gives it. */
    predicate Initial()
      reads this
    {
      && inn == "" && foundCompany == None && grantsHistory == [] && isHistoryVisible
      && selectedMeasure == "" && grantYear == "" && grantAmount == ""
      && !loading && error == "" && validationError == ""
    }

    constructor (auth: AuthSession)
      ensures Initial() && this.auth == auth
      ensures sent == [] && successCalls == 0 && closeCalls == 0
    {
      inn, foundCompany, grantsHistory, isHistoryVisible := "", None, [], true;
      selectedMeasure, grantYear, grantAmount := "", "", "";
      loading, error, validationError := false, "", "";
      this.auth := auth;
      sent, successCalls, closeCalls := [], 0, 0;
    }

    /** `resetState`. */
    method ResetState()
      modifies this`inn, this`foundCompany, this`grantsHistory, this`isHistoryVisible, this`selectedMeasure,
               this`grantYear, this`grantAmount, this`loading, this`error, this`validationError
      ensures Initial()
    {
      inn, foundCompany, grantsHistory, isHistoryVisible := "", None, [], true;
      selectedMeasure, grantYear, grantAmount := "", "", "";
      error, validationError, loading := "", "", false;
    }

    /** `handleClose`: reset, then `onClose`. */
    method HandleClose()
      modifies this`inn, this`foundCompany, this`grantsHistory, this`isHistoryVisible, this`selectedMeasure,
               this`grantYear, this`grantAmount, this`loading, this`error, this`validationError, this`closeCalls
      ensures Initial() && closeCalls == old(closeCalls) + 1
    {
      ResetState();
      closeCalls := closeCalls + 1;
    }

    method SetInn(v: string)
      modifies this`inn
      ensures inn == v
    {
      inn := v;
    }

    /** `handleRadioChange`. */
    method HandleRadioChange(measure: string)
      modifies this`selectedMeasure
      ensures selectedMeasure == measure
    {
      selectedMeasure := measure;
    }

    method SetGrantYear(v: string)
      modifies this`grantYear
      ensures grantYear == v
    {
      grantYear := v;
    }

    method SetGrantAmount(v: string)
      modifies this`grantAmount
      ensures grantAmount == v
    {
      grantAmount := v;
    }

    /** The history header folds and unfolds the list. */
    method ToggleHistory()
      modifies this`isHistoryVisible
      ensures isHistoryVisible == !old(isHistoryVisible)
    {
      isHistoryVisible := !isHistoryVisible;
    }

    /** `handleSearch`: look the INN up, then fetch that company's grants. */
    method HandleSearch(companyReply: Reply<FoundCompany>, grantsReply: Reply<seq<GrantRecord>>)
      modifies this`error, this`validationError, this`foundCompany, this`grantsHistory, this`loading, this`sent, auth
      // An empty INN only sets the error.
      ensures inn == "" ==>
                && error == InnRequired && sent == old(sent) && foundCompany == old(foundCompany)
                && grantsHistory == old(grantsHistory) && validationError == old(validationError)
                && loading == old(loading) && unchanged(auth)
      ensures inn != "" ==> !loading && validationError == ""
      ensures inn != "" ==> |sent| > |old(sent)| && sent[|old(sent)|] == GetCompanyByInn(inn, BearerHeader(old(auth.token)))
      // A 403 ends the session.
      ensures inn != "" && companyReply.Answered? && companyReply.status == 403 ==>
                && auth.token == None && auth.user == None && auth.storage == old(auth.storage) - {TokenKey, UserKey}
                && error == AccessDenied
      ensures inn != "" && companyReply.Answered? && companyReply.status != 403 && !Ok(companyReply) ==>
                error == ServerError(companyReply.status) && unchanged(auth)
      ensures inn != "" && companyReply.Rejected? ==> error == companyReply.reason && unchanged(auth)
      // A failed search leaves the found company and its history cleared.
      ensures inn != "" && !Ok(companyReply) ==>
                sent == old(sent) + [GetCompanyByInn(inn, BearerHeader(old(auth.token)))]
                && foundCompany == None && grantsHistory == []
      // A found company stays found whatever the history request gives.
      ensures inn != "" && Ok(companyReply) ==>
                && unchanged(auth) && foundCompany == Some(companyReply.payload)
                && sent == old(sent) + [GetCompanyByInn(inn, BearerHeader(auth.token)),
                                        GetGrants(companyReply.payload.id, BearerHeader(auth.token))]
                && (Ok(grantsReply) ==> grantsHistory == grantsReply.payload && error == "")
                && (grantsReply.Answered? && !Ok(grantsReply) ==> grantsHistory == [] && error == "")
                && (grantsReply.Rejected? ==> grantsHistory == [] && error == grantsReply.reason)
    {
      if inn == "" {
        error := InnRequired;
        return;
      }
      loading := true;
      error, validationError, foundCompany, grantsHistory := "", "", None, [];
      var header := BearerHeader(auth.token);
      sent := sent + [GetCompanyByInn(inn, header)];
      match companyReply {
        case Rejected(reason) =>
          error := reason;
        case Answered(status, _, data) =>
          if status == 403 {
            auth.Logout();
            error := AccessDenied;
          } else if !Ok(companyReply) {
            // The inner catch replaces whatever the body said.
            error := ServerError(status);
          } else {
            foundCompany := Some(data);
            sent := sent + [GetGrants(data.id, header)];
            match grantsReply {
              case Rejected(reason) =>
                error := reason;
              case Answered(_, _, grantsData) =>
                // A refused history is skipped without a message.
                if Ok(grantsReply) {
                  grantsHistory := grantsData;
                }
            }
          }
      }
      loading := false;
    }

    /** All four fields `handleSubmit` requires. */
    predicate Complete()
      reads this
    {
      foundCompany.Some? && selectedMeasure != "" && grantYear != "" && grantAmount != ""
    }

    /** `handleSubmit`: confirm the selected measure for the found company. */
    method HandleSubmit(reply: Reply<()>)
      modifies this`inn, this`foundCompany, this`grantsHistory, this`isHistoryVisible, this`selectedMeasure,
               this`grantYear, this`grantAmount, this`loading, this`error, this`validationError, this`sent,
               this`successCalls, auth
      // An incomplete form only sets the validation error.
      ensures !old(Complete()) ==>
                && validationError == FieldsRequired && sent == old(sent) && successCalls == old(successCalls)
                && inn == old(inn) && foundCompany == old(foundCompany) && grantsHistory == old(grantsHistory)
                && isHistoryVisible == old(isHistoryVisible) && selectedMeasure == old(selectedMeasure)
                && grantYear == old(grantYear) && grantAmount == old(grantAmount)
                && loading == old(loading) && error == old(error) && unchanged(auth)
      // The request always names a federal measure.
      ensures old(Complete()) ==>
                sent == old(sent) + [PostConfirmSupport(old(foundCompany).value.id, FederalMeasureType, old(selectedMeasure),
                                                        old(grantAmount), old(grantYear), BearerHeader(old(auth.token)))]
      // Success calls `onSuccess` once and resets the form.
      ensures old(Complete()) && Ok(reply) ==> successCalls == old(successCalls) + 1 && Initial() && unchanged(auth)
      ensures old(Complete()) && !Ok(reply) ==>
                && successCalls == old(successCalls) && !loading && validationError == ""
                && inn == old(inn) && foundCompany == old(foundCompany) && grantsHistory == old(grantsHistory)
                && isHistoryVisible == old(isHistoryVisible) && selectedMeasure == old(selectedMeasure)
                && grantYear == old(grantYear) && grantAmount == old(grantAmount)
      ensures old(Complete()) && reply.Answered? && reply.status == 403 ==>
                && auth.token == None && auth.user == None && auth.storage == old(auth.storage) - {TokenKey, UserKey}
                && error == AccessDenied
      ensures old(Complete()) && reply.Answered? && reply.status != 403 && !Ok(reply) ==>
                error == ServerError(reply.status) && unchanged(auth)
      ensures old(Complete()) && reply.Rejected? ==> error == reply.reason && unchanged(auth)
    {
      if !Complete() {
        validationError := FieldsRequired;
        return;
      }
      loading := true;
      error, validationError := "", "";
      sent := sent + [PostConfirmSupport(foundCompany.value.id, FederalMeasureType, selectedMeasure,
                                         grantAmount, grantYear, BearerHeader(auth.token))];
      match reply {
        case Rejected(reason) =>
          error := reason;
        case Answered(status, _, _) =>
          if status == 403 {
            auth.Logout();
            error := AccessDenied;
          } else if !Ok(reply) {
            error := ServerError(status);
          } else {
            successCalls := successCalls + 1;
            ResetState();
          }
      }
      loading := false;
    }
  }

  /** After a successful confirmation the form is as freshly opened, ready for the next one. */
  method ConfirmThenReopen(auth: AuthSession, companyReply: Reply<FoundCompany>, grantsReply: Reply<seq<GrantRecord>>,
                           k: nat, year: string, amount: string, reply: Reply<()>)
    returns (modal: ConfirmSupportModal)
    requires k < |FederalSupportMeasures| && year != "" && amount != ""
    requires Ok(companyReply) && Ok(reply)
    modifies auth
    ensures modal.Initial() && modal.successCalls == 1
    ensures |modal.sent| == 3 && modal.sent[2].PostConfirmSupport?
    ensures modal.sent[2].description == FederalSupportMeasures[k] && modal.sent[2].measureType == FederalMeasureType
    ensures modal.sent[2].companyId == companyReply.payload.id
  {
    modal := new ConfirmSupportModal(auth);
    modal.SetInn("5200000001");
    modal.HandleSearch(companyReply, grantsReply);
    modal.HandleRadioChange(FederalSupportMeasures[k]);
    modal.SetGrantYear(year);
    modal.SetGrantAmount(amount);
    modal.HandleSubmit(reply);
  }
}
