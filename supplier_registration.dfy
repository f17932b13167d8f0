/** `RegisterSupplierForm`: register the user, create its company, undo the registration when the
    company is refused, then either open the support survey (INNs of region 52) or log in. */
module SupplierRegistration {
  import opened Common
  import opened Api
  import opened Client

  const PasswordsDiffer := "Пароли не совпадают"
  const MustAgree := "Необходимо принять условия"
  const RegisterFallback := "Ошибка регистрации пользователя"
  const CompanyFallback := "Ошибка создания компании"
  const AutoLoginFallback := "Ошибка автоматического входа"
  const AutoLoginFailedPrefix := "Регистрация прошла, но не удалось автоматически войти: "
  const SupplierRole := "supplier"
  const RegionPrefix := "52"
  const RegionFullName := "ООО \"АСД СОФТ\""
  const RegionName := "Нижегородская область"

  const CompanyNamePrefix := "Компания "

  /** The placeholder name a new company gets. The INN can be read back from it, so companies
      registered with different INNs are never given the same name. */
  function CompanyName(inn: string): (n: string)
    ensures StartsWith(n, CompanyNamePrefix)
    ensures |n| == |CompanyNamePrefix| + |inn| && n[|CompanyNamePrefix|..] == inn
  {
    CompanyNamePrefix + inn
  }

  lemma CompanyNameInjective(a: string, b: string)
    requires CompanyName(a) == CompanyName(b)
    ensures a == b
  {
    assert a == CompanyName(a)[|CompanyNamePrefix|..];
  }

  /** The company the form asks to create: full name and region only for INNs of region 52. */
  function CompanyRequest(userId: int, inn: string): (r: Request)
    ensures r.PostCompany? && r.userId == userId && r.inn == inn && r.name == CompanyName(inn)
    ensures r.fullName.Some? <==> StartsWith(inn, RegionPrefix)
    ensures r.region.Some? <==> StartsWith(inn, RegionPrefix)
    ensures StartsWith(inn, RegionPrefix) ==> r.fullName == Some(RegionFullName) && r.region == Some(RegionName)
  {
    var inRegion := StartsWith(inn, RegionPrefix);
    PostCompany(userId, CompanyName(inn), inn,
                if inRegion then Some(RegionFullName) else None,
                if inRegion then Some(RegionName) else None)
  }

  class RegisterSupplierForm {
    var email: string
    var password: string
    var passwordConfirm: string
    var inn: string
    var agreed: bool
    var step: int
    var createdCompany: Option<CreatedCompany>
    var error: string
    /** The requests sent, in order. */
    var sent: seq<Request>
    /** The arguments of every `onLoginSuccess` call, in order. */
    var loginCalls: seq<LoginData>

    constructor ()
      ensures email == "" && password == "" && passwordConfirm == "" && inn == "" && !agreed
      ensures step == 1 && createdCompany == None && error == ""
      ensures sent == [] && loginCalls == []
    {
      email, password, passwordConfirm, inn, agreed := "", "", "", "", false;
      step, createdCompany, error := 1, None, "";
      sent, loginCalls := [], [];
    }

    /** `handleChange` for the text inputs and the agreement checkbox. */
    method Fill(email: string, password: string, passwordConfirm: string, inn: string, agreed: bool)
      modifies this`email, this`password, this`passwordConfirm, this`inn, this`agreed
      ensures this.email == email && this.password == password && this.passwordConfirm == passwordConfirm
      ensures this.inn == inn && this.agreed == agreed
    {
      this.email, this.password, this.passwordConfirm, this.inn, this.agreed := email, password, passwordConfirm, inn, agreed;
    }

    /** The survey replaces the form once step 2 is reached with a company. */
    predicate ShowsSurvey()
      reads this
    {
      step == 2 && createdCompany.Some?
    }

    /** `handleSubmit`. Each reply is what the corresponding request returns, used only when the
        request is sent; the reply to the DELETE matters only if it rejects. */
    method HandleSubmit(registerReply: Reply<int>, companyReply: Reply<CreatedCompany>, deleteReply: Reply<()>,
                        loginReply: Reply<LoginData>)
      modifies this`step, this`createdCompany, this`error, this`sent, this`loginCalls
      // The local checks send nothing.
      ensures password != passwordConfirm ==> error == PasswordsDiffer
      ensures password == passwordConfirm && !agreed ==> error == MustAgree
      ensures !(password == passwordConfirm && agreed) ==>
                sent == old(sent) && loginCalls == old(loginCalls) && step == old(step) && createdCompany == old(createdCompany)
      // A refused registration stops before the company.
      ensures password == passwordConfirm && agreed && !Ok(registerReply) ==>
                && sent == old(sent) + [PostRegister(email, password, SupplierRole)]
                && error == FailureMessage(registerReply, RegisterFallback)
                && loginCalls == old(loginCalls) && step == old(step) && createdCompany == old(createdCompany)
      // A company the server answered with an error is compensated by one DELETE of the new user.
      ensures password == passwordConfirm && agreed && Ok(registerReply) && !Ok(companyReply) ==>
                && sent == old(sent) + [PostRegister(email, password, SupplierRole),
                                        CompanyRequest(registerReply.payload, inn)]
                                     + (if companyReply.Answered? then [DeleteUser(registerReply.payload)] else [])
                && error == (if companyReply.Answered? && deleteReply.Rejected? then deleteReply.reason
                             else FailureMessage(companyReply, CompanyFallback))
                && loginCalls == old(loginCalls) && step == old(step) && createdCompany == old(createdCompany)
      // Region 52 goes to the survey without logging in.
      ensures password == passwordConfirm && agreed && Ok(registerReply) && Ok(companyReply) && StartsWith(inn, RegionPrefix) ==>
                && sent == old(sent) + [PostRegister(email, password, SupplierRole), CompanyRequest(registerReply.payload, inn)]
                && createdCompany == Some(companyReply.payload) && step == 2 && error == ""
                && loginCalls == old(loginCalls)
      // Any other INN logs in at once and stays on step 1.
      ensures password == passwordConfirm && agreed && Ok(registerReply) && Ok(companyReply) && !StartsWith(inn, RegionPrefix) ==>
                && sent == old(sent) + [PostRegister(email, password, SupplierRole), CompanyRequest(registerReply.payload, inn),
                                        PostLogin(email, password)]
                && createdCompany == Some(companyReply.payload) && step == old(step)
                && (Ok(loginReply) ==> loginCalls == old(loginCalls) + [loginReply.payload] && error == "")
                && (!Ok(loginReply) ==>
                      loginCalls == old(loginCalls)
                      && error == AutoLoginFailedPrefix + FailureMessage(loginReply, AutoLoginFallback))
    {
      error := "";
      if password != passwordConfirm {
        error := PasswordsDiffer;
        return;
      }
      if !agreed {
        error := MustAgree;
        return;
      }
      // 1. The user.
      sent := sent + [PostRegister(email, password, SupplierRole)];
      if !Ok(registerReply) {
        error := FailureMessage(registerReply, RegisterFallback);
        return;
      }
      var userId := registerReply.payload;
      // 2. The company.
      sent := sent + [CompanyRequest(userId, inn)];
      if companyReply.Rejected? {
        // The body was not read, so no compensation is sent.
        error := companyReply.reason;
        return;
      }
      if !Ok(companyReply) {
        sent := sent + [DeleteUser(userId)];
        if deleteReply.Rejected? {
          error := deleteReply.reason;
        } else {
          error := FailureMessage(companyReply, CompanyFallback);
        }
        return;
      }
      createdCompany := Some(companyReply.payload);
      // 3. Survey or login.
      if StartsWith(inn, RegionPrefix) {
        step := 2;
      } else {
        sent := sent + [PostLogin(email, password)];
        if Ok(loginReply) {
          loginCalls := loginCalls + [loginReply.payload];
        } else {
          error := AutoLoginFailedPrefix + FailureMessage(loginReply, AutoLoginFallback);
        }
      }
    }
  }

  /** The number of compensating DELETEs among the requests. */
  function Deletes(requests: seq<Request>): (n: nat)
    ensures n <= |requests|
  {
    if |requests| == 0 then 0
    else (if requests[|requests| - 1].DeleteUser? then 1 else 0) + Deletes(requests[..|requests| - 1])
  }

  lemma {:induction false} DeletesAppend(a: seq<Request>, b: seq<Request>)
    ensures Deletes(a + b) == Deletes(a) + Deletes(b)
    decreases |b|
  {
    if |b| == 0 {
      assert a + b == a;
    } else {
      assert (a + b)[..|a + b| - 1] == a + b[..|b| - 1];
      DeletesAppend(a, b[..|b| - 1]);
    }
  }

  /** One submission from a fresh form: the survey shows exactly when both creations succeed for an
      INN of region 52, a DELETE is sent exactly when the server refused the company, and at most
      one of the two happens. */
  method SubmitOnce(email: string, password: string, inn: string, registerReply: Reply<int>,
                    companyReply: Reply<CreatedCompany>, deleteReply: Reply<()>, loginReply: Reply<LoginData>)
    returns (form: RegisterSupplierForm)
    ensures form.ShowsSurvey() <==> Ok(registerReply) && Ok(companyReply) && StartsWith(inn, RegionPrefix)
    ensures Deletes(form.sent) == (if Ok(registerReply) && companyReply.Answered? && !Ok(companyReply) then 1 else 0)
    ensures Deletes(form.sent) == 1 ==> form.sent[|form.sent| - 1] == DeleteUser(registerReply.payload)
    ensures |form.loginCalls| <= 1
    ensures form.ShowsSurvey() ==> form.loginCalls == []
  {
    form := new RegisterSupplierForm();
    form.Fill(email, password, password, inn, true);
    form.HandleSubmit(registerReply, companyReply, deleteReply, loginReply);
    var reg := [PostRegister(email, password, SupplierRole)];
    var comp := [CompanyRequest(if Ok(registerReply) then registerReply.payload else 0, inn)];
    assert Deletes(reg) == 0 && Deletes(comp) == 0;
    assert Deletes([PostLogin(email, password)]) == 0;
    DeletesAppend(reg, comp);
    if !Ok(registerReply) {
      assert form.sent == reg;
    } else if !Ok(companyReply) && companyReply.Answered? {
      assert Deletes([DeleteUser(registerReply.payload)]) == 1;
      assert form.sent == reg + comp + [DeleteUser(registerReply.payload)];
      DeletesAppend(reg + comp, [DeleteUser(registerReply.payload)]);
    } else if !Ok(companyReply) || StartsWith(inn, RegionPrefix) {
      assert form.sent == reg + comp;
    } else {
      assert form.sent == reg + comp + [PostLogin(email, password)];
      DeletesAppend(reg + comp, [PostLogin(email, password)]);
    }
  }
}
