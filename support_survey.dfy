/** `SupportSurvey`: the answers of the support survey, the checkbox toggle behind its three lists,
    and the submit that saves the answers and then logs the new supplier in. */
module SupportSurvey {
  import opened Common
  import opened Api
  import opened Client
  import opened Ordering

  const SaveFallback := "Ошибка сохранения данных"
  const AutoLoginFallback := "Ошибка автоматического входа"

  /** `prev.filter(item => item !== v)`. */
  function Without(s: seq<string>, v: string): (r: seq<string>)
    ensures v !in r
    ensures |r| <= |s|
    ensures forall x :: x != v ==> multiset(r)[x] == multiset(s)[x]
  {
    if |s| == 0 then []
    else
      assert s == [s[0]] + s[1..];
      (if s[0] == v then [] else [s[0]]) + Without(s[1..], v)
  }

  /** The filter keeps the rest in order: it works piece by piece. */
  lemma {:induction false} WithoutAppend(a: seq<string>, b: seq<string>, v: string)
    ensures Without(a + b, v) == Without(a, v) + Without(b, v)
  {
    if |a| == 0 {
      assert a + b == b;
    } else {
      assert (a + b)[0] == a[0] && (a + b)[1..] == a[1..] + b;
      WithoutAppend(a[1..], b, v);
    }
  }

  /** Filtering out a value that is absent changes nothing. */
  lemma {:induction false} WithoutAbsent(s: seq<string>, v: string)
    requires v !in s
    ensures Without(s, v) == s
  {
    if |s| > 0 {
      assert v !in s[1..];
      WithoutAbsent(s[1..], v);
      assert [s[0]] + s[1..] == s;
    }
  }

  /** `handleCheckboxChange`'s updater: remove the value if it is there, else append it. */
  function Toggle(prev: seq<string>, v: string): (r: seq<string>)
    ensures v !in prev ==> r == prev + [v]
    ensures v in prev ==> r == Without(prev, v)
    ensures v in r <==> v !in prev
    ensures forall x :: x != v ==> (x in r <==> x in prev)
  {
    if v in prev then
      assert forall x :: x != v ==> (x in Without(prev, v) <==> x in multiset(prev));
      Without(prev, v)
    else prev + [v]
  }

  /** Toggling twice gives the value back its membership; from absent it restores the list. */
  lemma ToggleTwice(s: seq<string>, v: string)
    ensures (v in Toggle(Toggle(s, v), v)) <==> v in s
    ensures v !in s ==> Toggle(Toggle(s, v), v) == s
  {
    if v !in s {
      WithoutAppend(s, [v], v);
      WithoutAbsent(s, v);
      assert Without([v], v) == [];
    }
  }

  /** A list without repeats stays without repeats. */
  lemma ToggleKeepsDistinct(s: seq<string>, v: string)
    requires Distinct(s)
    ensures Distinct(Toggle(s, v))
  {
    if v in s {
      DistinctWithout(s, v);
    } else {
      var r := s + [v];
      forall i, j | 0 <= i < j < |r| ensures r[i] != r[j] {
        if j == |s| {
          assert r[i] == s[i];
        }
      }
    }
  }

  lemma {:induction false} DistinctWithout(s: seq<string>, v: string)
    requires Distinct(s)
    ensures Distinct(Without(s, v))
  {
    if |s| > 0 {
      var tail := s[1..];
      assert Distinct(tail) by {
        forall i, j | 0 <= i < j < |tail| ensures tail[i] != tail[j] {
          assert tail[i] == s[i + 1] && tail[j] == s[j + 1];
        }
      }
      DistinctWithout(tail, v);
      var rest := Without(tail, v);
      if s[0] != v {
        assert s[0] !in tail;
        assert s[0] !in rest by {
          assert multiset(rest)[s[0]] == multiset(tail)[s[0]] == 0;
        }
        var r := [s[0]] + rest;
        assert Without(s, v) == r;
        forall i, j | 0 <= i < j < |r| ensures r[i] != r[j] {
          if i == 0 {
            assert r[j] == rest[j - 1] && rest[j - 1] in rest;
          } else {
            assert r[i] == rest[i - 1] && r[j] == rest[j - 1];
          }
        }
      } else {
        assert Without(s, v) == [] + rest == rest;
      }
    }
  }

  /** The three lists the checkboxes edit. */
  datatype ListField = MainInterests | UsedFederal | UsedRegional

  class SupportSurveyForm {
    const companyId: int
    const email: string
    const password: string
    var isAware: Option<bool>
    var mainInterests: seq<string>
    var startupPlans: string
    var attractingSpecialists: Option<bool>
    var usedSupport: Option<bool>
    var usedFederal: seq<string>
    var usedRegional: seq<string>
    var error: string
    var message: string
    /** The requests sent, in order. */
    var sent: seq<Request>
    /** The arguments of every `onLoginSuccess` call, in order. */
    var loginCalls: seq<LoginData>

    constructor (companyId: int, email: string, password: string)
      ensures this.companyId == companyId && this.email == email && this.password == password
      ensures isAware == None && mainInterests == [] && startupPlans == "" && attractingSpecialists == None
      ensures usedSupport == None && usedFederal == [] && usedRegional == []
      ensures error == "" && message == "" && sent == [] && loginCalls == []
    {
      this.companyId, this.email, this.password := companyId, email, password;
      isAware, mainInterests, startupPlans, attractingSpecialists := None, [], "", None;
      usedSupport, usedFederal, usedRegional := None, [], [];
      error, message, sent, loginCalls := "", "", [], [];
    }

    /** `handleCheckboxChange(setter, value)`. */
    method HandleCheckboxChange(field: ListField, value: string)
      modifies this`mainInterests, this`usedFederal, this`usedRegional
      ensures mainInterests == if field == MainInterests then Toggle(old(mainInterests), value) else old(mainInterests)
      ensures usedFederal == if field == UsedFederal then Toggle(old(usedFederal), value) else old(usedFederal)
      ensures usedRegional == if field == UsedRegional then Toggle(old(usedRegional), value) else old(usedRegional)
    {
      match field
      case MainInterests => mainInterests := Toggle(mainInterests, value);
      case UsedFederal => usedFederal := Toggle(usedFederal, value);
      case UsedRegional => usedRegional := Toggle(usedRegional, value);
    }

    method SetIsAware(b: bool)
      modifies this`isAware
      ensures isAware == Some(b)
    {
      isAware := Some(b);
    }

    method SetStartupPlans(v: string)
      modifies this`startupPlans
      ensures startupPlans == v
    {
      startupPlans := v;
    }

    method SetAttractingSpecialists(b: bool)
      modifies this`attractingSpecialists
      ensures attractingSpecialists == Some(b)
    {
      attractingSpecialists := Some(b);
    }

    /** Only hides or shows the block of used measures; the lists keep what was ticked. */
    method SetUsedSupport(b: bool)
      modifies this`usedSupport
      ensures usedSupport == Some(b)
    {
      usedSupport := Some(b);
    }

    /** The body `handleSubmit` sends: the lists as collected, whatever `usedSupport` holds. */
    function SurveyData(): (d: SurveyPayload)
      reads this
      ensures d.mainInterest.Some? && d.usedFederal.Some? && d.usedRegional.Some?
      ensures d.isAware == isAware && d.mainInterest.value == mainInterests
      ensures d.usedFederal.value == usedFederal && d.usedRegional.value == usedRegional
    {
      SurveyPayload(isAware, Some(mainInterests), Some(startupPlans), attractingSpecialists,
                    Some(usedFederal), Some(usedRegional))
    }

    /** `handleSubmit`: save the survey, and only once it is saved, log in. */
    method HandleSubmit(surveyReply: Reply<()>, loginReply: Reply<LoginData>)
      modifies this`error, this`message, this`sent, this`loginCalls
      ensures message == ""
      ensures !Ok(surveyReply) ==>
                && sent == old(sent) + [PostSurvey(companyId, SurveyData())]
                && error == FailureMessage(surveyReply, SaveFallback) && loginCalls == old(loginCalls)
      ensures Ok(surveyReply) ==>
                sent == old(sent) + [PostSurvey(companyId, SurveyData()), PostLogin(email, password)]
      ensures Ok(surveyReply) && Ok(loginReply) ==>
                loginCalls == old(loginCalls) + [loginReply.payload] && error == ""
      ensures Ok(surveyReply) && !Ok(loginReply) ==>
                loginCalls == old(loginCalls) && error == FailureMessage(loginReply, AutoLoginFallback)
    {
      error := "";
      message := "";
      var surveyData := SurveyData();
      sent := sent + [PostSurvey(companyId, surveyData)];
      if !Ok(surveyReply) {
        error := FailureMessage(surveyReply, SaveFallback);
        return;
      }
      sent := sent + [PostLogin(email, password)];
      if !Ok(loginReply) {
        error := FailureMessage(loginReply, AutoLoginFallback);
        return;
      }
      loginCalls := loginCalls + [loginReply.payload];
    }
  }

  /** Ticking a used federal measure and then answering "no" still submits that measure. */
  method HiddenAnswersSubmitted(companyId: int, email: string, password: string, measure: string,
                                surveyReply: Reply<()>, loginReply: Reply<LoginData>)
    returns (form: SupportSurveyForm)
    ensures form.usedSupport == Some(false)
    ensures |form.sent| >= 1
    ensures form.sent[0].PostSurvey? && form.sent[0].survey.usedFederal == Some([measure])
  {
    form := new SupportSurveyForm(companyId, email, password);
    form.SetUsedSupport(true);
    form.HandleCheckboxChange(UsedFederal, measure);
    assert form.usedFederal == [] + [measure] == [measure];
    form.SetUsedSupport(false);
    form.HandleSubmit(surveyReply, loginReply);
  }
}
