/** The operator service: the operator role gate, the support and registry statistics, the
    search by INN, a company's grant history and the append-only log of confirmed support. */
module OperatorService {
  import opened Common
  import opened Store
  import opened Tables
  import opened Ordering
  import Jwt

  const NoToken := "Токен не предоставлен"
  const InvalidToken := "Невалидный токен"
  const OperatorRequired := "Доступ запрещен: требуется роль оператора"
  const OperatorRole := "operator"
  const InternalError := "Internal server error"
  const RegistryError := "Ошибка сервера при получении статистики по реестру"
  const InnNotNumber := "ИНН должен быть числом"
  const InnNotFound := "Компания с таким ИНН не найдена"
  const GrantsError := "Ошибка сервера при получении истории грантов"
  const MissingMeasureFields :=
    "Отсутствуют или некорректны обязательные поля: companyId, measureType, description, grantYear, grantAmount"
  const SupportConfirmed := "Мера поддержки успешно подтверждена"
  const ConfirmError := "Ошибка сервера при сохранении меры поддержки"

  /** `INTERVAL '30 days'`, in seconds. */
  const NewWindow: int := 30 * 24 * 3600

  /** The INN prefix of the Nizhny Novgorod region. */
  const RegionPrefix := "52"

  /** One group of `GROUP BY interest`. */
  datatype InterestCount = InterestCount(interest: string, count: nat)

  /** One group of `GROUP BY description` with its `COUNT(DISTINCT company_id)`. */
  datatype GrantGroup = GrantGroup(description: string, companyCount: nat)

  datatype RegistryStats = RegistryStats(totalCompanies: nat, nnCompanies: nat, newTotalCompanies: nat, newNnCompanies: nat)

  /** The columns the grant history selects. */
  datatype GrantEntry = GrantEntry(description: string, grantYear: string, grantAmount: string, confirmedAt: int)

  datatype Body =
    | Message(message: string)
    | SupportStats(companiesAwareCount: nat, topInterests: seq<InterestCount>, confirmedGrantsStats: seq<GrantGroup>)
    | Registry(stats: RegistryStats)
    | CompanyFound(id: int, name: Option<string>, inn: string)
    | GrantHistory(entries: seq<GrantEntry>)

  datatype Response = Response(status: int, body: Body)

  // ---------------------------------------------------------------------------
  // verifyOperator

  datatype Gate = Refused(response: Response) | Operator(claims: Jwt.Payload)

  /** No header is 401; a header without a second word, or whose second word does not verify, is
      403; claims of another role are 403 as well. */
  function VerifyOperator(header: Option<string>, signer: Jwt.Signer): (g: Gate)
    ensures !Present(header) ==> g == Refused(Response(401, Message(NoToken)))
    ensures Present(header) && (SecondWord(header.value).None? || signer.verify(SecondWord(header.value).value).None?) ==>
              g == Refused(Response(403, Message(InvalidToken)))
    ensures Present(header) && SecondWord(header.value).Some? && signer.verify(SecondWord(header.value).value).Some?
            && signer.verify(SecondWord(header.value).value).value.role != OperatorRole ==>
              g == Refused(Response(403, Message(OperatorRequired)))
    ensures g.Operator? <==>
              && Present(header) && SecondWord(header.value).Some?
              && signer.verify(SecondWord(header.value).value).Some?
              && signer.verify(SecondWord(header.value).value).value.role == OperatorRole
    ensures g.Operator? ==> g.claims == signer.verify(SecondWord(header.value).value).value
  {
    if !Present(header) then Refused(Response(401, Message(NoToken)))
    else match SecondWord(header.value)
      // `split(' ')[1]` is undefined, and jwt.verify rejects undefined.
      case None => Refused(Response(403, Message(InvalidToken)))
      case Some(token) =>
        match signer.verify(token)
        case None => Refused(Response(403, Message(InvalidToken)))
        case Some(decoded) =>
          if decoded.role != OperatorRole then Refused(Response(403, Message(OperatorRequired)))
          else Operator(decoded)
  }

  /** A token `/login` issued passes the operator gate exactly when it was issued to an operator. */
  lemma IssuedTokenAtOperatorGate(signer: Jwt.Signer, p: Jwt.Payload)
    requires Jwt.Sound(signer)
    ensures VerifyOperator(Some("Bearer " + signer.sign(p, Jwt.ExpiresIn)), signer)
         == if p.role == OperatorRole then Operator(p) else Refused(Response(403, Message(OperatorRequired)))
  {
    SecondWordOfBearer(signer.sign(p, Jwt.ExpiresIn));
  }

  // ---------------------------------------------------------------------------
  // GET /api/operator/support-stats

  /** `COUNT(*) ... WHERE is_aware = true`. */
  function AwareCount(surveys: seq<SurveyAnswer>): (n: nat)
    ensures n <= |surveys|
  {
    if |surveys| == 0 then 0
    else AwareCount(surveys[..|surveys| - 1]) + (if surveys[|surveys| - 1].isAware == Some(true) then 1 else 0)
  }

  /** 1 for an answer the count includes: `is_aware` is true, not false and not NULL. */
  function Aware(a: SurveyAnswer): nat {
    if a.isAware == Some(true) then 1 else 0
  }

  /** The `is_aware` column, row by row. */
  function Awareness(surveys: seq<SurveyAnswer>): (r: seq<Option<bool>>)
    ensures |r| == |surveys|
    ensures forall k :: 0 <= k < |r| ==> r[k] == surveys[k].isAware
  {
    if |surveys| == 0 then [] else Awareness(surveys[..|surveys| - 1]) + [surveys[|surveys| - 1].isAware]
  }

  /** The aware count is the number of rows whose `is_aware` is true, whatever their order. */
  lemma {:induction false} AwareCountCounts(surveys: seq<SurveyAnswer>)
    ensures AwareCount(surveys) == multiset(Awareness(surveys))[Some(true)]
  {
    if |surveys| > 0 {
      var init := surveys[..|surveys| - 1];
      AwareCountCounts(init);
      assert Awareness(surveys) == Awareness(init) + [surveys[|surveys| - 1].isAware];
    }
  }

  /** Replacing one answer changes the aware count by the difference of their awareness. */
  lemma AwareCountReplace(surveys: seq<SurveyAnswer>, i: nat, row: SurveyAnswer)
    requires i < |surveys|
    ensures AwareCount(surveys[i := row]) == AwareCount(surveys) - Aware(surveys[i]) + Aware(row)
  {
    var was := Awareness(surveys);
    AwareCountCounts(surveys);
    AwareCountCounts(surveys[i := row]);
    assert Awareness(surveys[i := row]) == was[i := row.isAware];
    assert multiset(was[i := row.isAware]) == multiset(was) - multiset{was[i]} + multiset{row.isAware};
  }

  /** Saving a company's answers changes the aware count by the new answer's awareness, less that
      of the answer it replaces, if any. */
  lemma AwareCountAfterSave(surveys: seq<SurveyAnswer>, row: SurveyAnswer)
    ensures var before := Lookup(surveys, SurveyKey, row.companyId);
            AwareCount(Upsert(surveys, SurveyKey, row))
              == AwareCount(surveys) - (if before.Some? then Aware(before.value) else 0) + Aware(row)
  {
    var idx := IndexOfKey(surveys, SurveyKey, row.companyId);
    if idx.None? {
      assert Upsert(surveys, SurveyKey, row) == surveys + [row];
      assert (surveys + [row])[..|surveys|] == surveys;
    } else {
      assert Upsert(surveys, SurveyKey, row) == surveys[idx.value := row];
      AwareCountReplace(surveys, idx.value, row);
    }
  }

  /** `unnest(main_interest)` over every answer: NULL and empty arrays contribute nothing. */
  function AllInterests(surveys: seq<SurveyAnswer>): (r: seq<string>)
    ensures forall k :: 0 <= k < |r| ==>
              exists a :: a in surveys && a.mainInterest.Some? && r[k] in a.mainInterest.value
    ensures forall a, x :: a in surveys && a.mainInterest.Some? && x in a.mainInterest.value ==> x in r
  {
    if |surveys| == 0 then []
    else
      var last := surveys[|surveys| - 1];
      AllInterests(surveys[..|surveys| - 1]) + (if last.mainInterest.Some? then last.mainInterest.value else [])
  }

  function CountKey(c: InterestCount): int { c.count }

  /** Each distinct interest with the number of times it occurs in `all`. */
  function Tally(names: seq<string>, all: seq<string>): (r: seq<InterestCount>)
    ensures |r| == |names|
    ensures forall k :: 0 <= k < |r| ==> r[k] == InterestCount(names[k], multiset(all)[names[k]])
  {
    if |names| == 0 then [] else [InterestCount(names[0], multiset(all)[names[0]])] + Tally(names[1..], all)
  }

  /** The interest groups by count, largest first, `LIMIT 3`. Ties are broken by one fixed rule; the
      query leaves their order open. */
  function TopInterests(surveys: seq<SurveyAnswer>): (r: seq<InterestCount>)
    ensures |r| <= 3
    ensures SortedDesc(r, CountKey)
  {
    var all := AllInterests(surveys);
    Take(SortDesc(Tally(Dedup(all), all), CountKey), 3)
  }

  /** Each listed interest occurs in the answers, its count is its number of occurrences, and no
      interest is listed twice. */
  lemma TopInterestsCounted(surveys: seq<SurveyAnswer>)
    ensures var r := TopInterests(surveys);
            var all := AllInterests(surveys);
            && (forall k :: 0 <= k < |r| ==> r[k].interest in all && r[k].count == multiset(all)[r[k].interest])
            && (forall i, j :: 0 <= i < j < |r| ==> r[i].interest != r[j].interest)
  {
    var all := AllInterests(surveys);
    var groups := Tally(Dedup(all), all);
    var sorted := SortDesc(groups, CountKey);
    var r := TopInterests(surveys);
    forall k | 0 <= k < |r|
      ensures r[k].interest in all && r[k].count == multiset(all)[r[k].interest]
    {
      InPermutation(sorted, groups, k);
    }
    TallyDistinct(Dedup(all), all);
    PermutationDistinct(sorted, groups);
    assert forall i, j :: 0 <= i < j < |r| ==> r[i] == sorted[i] && r[j] == sorted[j];
  }

  /** No interest left out occurs more often than the last one listed. */
  lemma TopInterestsMaximal(surveys: seq<SurveyAnswer>, x: string)
    requires x in AllInterests(surveys)
    ensures var r := TopInterests(surveys);
            (exists k :: 0 <= k < |r| && r[k].interest == x)
            || (|r| == 3 && multiset(AllInterests(surveys))[x] <= r[2].count)
  {
    var all := AllInterests(surveys);
    var names := Dedup(all);
    var groups := Tally(names, all);
    var sorted := SortDesc(groups, CountKey);
    var r := TopInterests(surveys);
    var i :| 0 <= i < |all| && all[i] == x;
    var n :| 0 <= n < |names| && names[n] == x;
    assert groups[n] in groups;
    var p := PositionInPermutation(sorted, groups, groups[n]);
    if p >= 3 {
      assert CountKey(sorted[2]) >= CountKey(sorted[p]);
      assert r[2] == sorted[2];
    } else {
      assert r[p] == sorted[p];
    }
  }

  /** Tallies of distinct names are distinct. */
  lemma TallyDistinct(names: seq<string>, all: seq<string>)
    requires Distinct(names)
    ensures Distinct(Tally(names, all))
  {
  }

  /** A distinct sequence holds every value at most once. */
  lemma {:induction false} DistinctMultiplicity<T>(s: seq<T>, x: T)
    requires Distinct(s)
    ensures multiset(s)[x] <= 1
  {
    if |s| > 0 {
      var init := s[..|s| - 1];
      assert s == init + [s[|s| - 1]];
      assert Distinct(init);
      DistinctMultiplicity(init, x);
      if x == s[|s| - 1] {
        assert x !in init;
      }
    }
  }

  /** A permutation of a distinct sequence is distinct. */
  lemma PermutationDistinct<T>(r: seq<T>, s: seq<T>)
    requires multiset(r) == multiset(s) && Distinct(s)
    ensures Distinct(r)
  {
    forall i, j | 0 <= i < j < |r| ensures r[i] != r[j] {
      if r[i] == r[j] {
        assert r == r[..j] + r[j..];
        assert r[i] in r[..j] && r[j] in r[j..];
        assert multiset(r)[r[i]] == multiset(r[..j])[r[i]] + multiset(r[j..])[r[i]];
        DistinctMultiplicity(s, r[i]);
        assert false;
      }
    }
  }

  /** `description` of every grant in table order. */
  function Descriptions(grants: seq<Grant>): (r: seq<string>)
    ensures |r| == |grants|
    ensures forall k :: 0 <= k < |r| ==> r[k] == grants[k].description
  {
    if |grants| == 0 then [] else Descriptions(grants[..|grants| - 1]) + [grants[|grants| - 1].description]
  }

  /** `COUNT(DISTINCT company_id)` among the grants with this description. */
  function CompanyCount(grants: seq<Grant>, description: string): (n: nat)
    ensures n == 0 <==> forall g <- grants :: g.description != description
  {
    var ids := set g <- grants | g.description == description :: g.companyId;
    if exists g <- grants :: g.description == description then
      var g :| g in grants && g.description == description;
      assert g.companyId in ids;
      |ids|
    else
      assert ids == {};
      |ids|
  }

  function Groups(descriptions: seq<string>, grants: seq<Grant>): (r: seq<GrantGroup>)
    ensures |r| == |descriptions|
    ensures forall k :: 0 <= k < |r| ==> r[k] == GrantGroup(descriptions[k], CompanyCount(grants, descriptions[k]))
  {
    if |descriptions| == 0 then []
    else [GrantGroup(descriptions[0], CompanyCount(grants, descriptions[0]))] + Groups(descriptions[1..], grants)
  }

  function CompanyCountKey(g: GrantGroup): int { g.companyCount }

  /** One group per description that occurs, with its distinct-company count, largest first. */
  function ConfirmedGrantsStats(grants: seq<Grant>): (r: seq<GrantGroup>)
    ensures SortedDesc(r, CompanyCountKey)
  {
    SortDesc(Groups(Dedup(Descriptions(grants)), grants), CompanyCountKey)
  }

  /** Every group is a description that occurs, counted by its distinct companies, and no
      description has two groups. */
  lemma ConfirmedGrantsGrouped(grants: seq<Grant>)
    ensures var r := ConfirmedGrantsStats(grants);
            && (forall k :: 0 <= k < |r| ==>
                  (exists g <- grants :: g.description == r[k].description)
                  && r[k].companyCount == CompanyCount(grants, r[k].description))
            && (forall i, j :: 0 <= i < j < |r| ==> r[i].description != r[j].description)
  {
    var descriptions := Descriptions(grants);
    var names := Dedup(descriptions);
    var groups := Groups(names, grants);
    var r := ConfirmedGrantsStats(grants);
    forall k | 0 <= k < |r|
      ensures (exists g <- grants :: g.description == r[k].description)
              && r[k].companyCount == CompanyCount(grants, r[k].description)
    {
      InPermutation(r, groups, k);
      var n :| 0 <= n < |groups| && groups[n] == r[k];
      assert names[n] in descriptions;
      var i :| 0 <= i < |grants| && descriptions[i] == names[n];
      assert grants[i] in grants;
    }
    assert Distinct(groups);
    PermutationDistinct(r, groups);
  }

  /** Every grant's description has a group. */
  lemma ConfirmedGrantsCovered(grants: seq<Grant>, g: Grant)
    requires g in grants
    ensures var r := ConfirmedGrantsStats(grants);
            exists k :: 0 <= k < |r| && r[k].description == g.description
  {
    var descriptions := Descriptions(grants);
    var names := Dedup(descriptions);
    var groups := Groups(names, grants);
    var r := ConfirmedGrantsStats(grants);
    var i :| 0 <= i < |grants| && grants[i] == g;
    assert descriptions[i] == g.description;
    var n :| 0 <= n < |names| && names[n] == g.description;
    assert groups[n] in groups;
    var p := PositionInPermutation(r, groups, groups[n]);
    assert r[p].description == g.description;
  }

  /** Confirming once more a description already confirmed for that company changes no count. */
  lemma ReconfirmKeepsStats(grants: seq<Grant>, g: Grant)
    requires exists h <- grants :: h.description == g.description && h.companyId == g.companyId
    ensures ConfirmedGrantsStats(grants + [g]) == ConfirmedGrantsStats(grants)
  {
    var after := grants + [g];
    var descriptions := Descriptions(grants);
    assert Descriptions(after) == descriptions + [g.description];
    var h :| h in grants && h.description == g.description && h.companyId == g.companyId;
    var i :| 0 <= i < |grants| && grants[i] == h;
    assert descriptions[i] == g.description;
    DedupAppendPresent(descriptions, g.description);
    var names := Dedup(descriptions);
    forall k | 0 <= k < |names| ensures CompanyCount(after, names[k]) == CompanyCount(grants, names[k]) {
      ReconfirmKeepsCount(grants, g, h, names[k]);
    }
    assert Groups(names, after) == Groups(names, grants);
  }

  lemma ReconfirmKeepsCount(grants: seq<Grant>, g: Grant, h: Grant, d: string)
    requires h in grants && h.description == g.description && h.companyId == g.companyId
    ensures CompanyCount(grants + [g], d) == CompanyCount(grants, d)
  {
    assert (set x <- grants + [g] | x.description == d :: x.companyId)
        == (set x <- grants | x.description == d :: x.companyId);
  }

  /** A new description, or a new company for a description, adds one to that description's count. */
  lemma NewCompanyRaisesCount(grants: seq<Grant>, g: Grant)
    requires forall h <- grants :: !(h.description == g.description && h.companyId == g.companyId)
    ensures CompanyCount(grants + [g], g.description) == CompanyCount(grants, g.description) + 1
  {
    var before := set x <- grants | x.description == g.description :: x.companyId;
    assert (set x <- grants + [g] | x.description == g.description :: x.companyId) == before + {g.companyId};
    assert g.companyId !in before;
  }

  /** `GET /api/operator/support-stats`. */
  function SupportStatsOf(surveys: seq<SurveyAnswer>, grants: seq<Grant>, header: Option<string>,
                          signer: Jwt.Signer, fault: bool): (r: Response)
    ensures VerifyOperator(header, signer).Refused? ==> r == VerifyOperator(header, signer).response
    ensures VerifyOperator(header, signer).Operator? && fault ==> r == Response(500, Message(InternalError))
    ensures VerifyOperator(header, signer).Operator? && !fault ==>
              r == Response(200, SupportStats(AwareCount(surveys), TopInterests(surveys), ConfirmedGrantsStats(grants)))
  {
    match VerifyOperator(header, signer)
    case Refused(response) => response
    case Operator(_) =>
      if fault then Response(500, Message(InternalError))
      else Response(200, SupportStats(AwareCount(surveys), TopInterests(surveys), ConfirmedGrantsStats(grants)))
  }

  // ---------------------------------------------------------------------------
  // GET /api/operator/registry-stats

  /** `inn LIKE '52%'`. */
  predicate FromRegion(c: Company) { StartsWith(c.inn, RegionPrefix) }

  /** `created_at >= NOW() - INTERVAL '30 days'`. */
  predicate IsNew(c: Company, now: int) { c.createdAt >= now - NewWindow }

  function RegionCount(companies: seq<Company>): (n: nat)
    ensures n <= |companies|
  {
    if |companies| == 0 then 0
    else (if FromRegion(companies[0]) then 1 else 0) + RegionCount(companies[1..])
  }

  function NewCount(companies: seq<Company>, now: int): (n: nat)
    ensures n <= |companies|
  {
    if |companies| == 0 then 0
    else (if IsNew(companies[0], now) then 1 else 0) + NewCount(companies[1..], now)
  }

  function NewRegionCount(companies: seq<Company>, now: int): (n: nat)
    ensures n <= RegionCount(companies) && n <= NewCount(companies, now)
  {
    if |companies| == 0 then 0
    else (if FromRegion(companies[0]) && IsNew(companies[0], now) then 1 else 0) + NewRegionCount(companies[1..], now)
  }

  /** The four counts of the registry tab. */
  function RegistryCounts(companies: seq<Company>, now: int): (s: RegistryStats)
    ensures s.totalCompanies == |companies|
    ensures s.nnCompanies <= s.totalCompanies && s.newTotalCompanies <= s.totalCompanies
    ensures s.newNnCompanies <= s.nnCompanies && s.newNnCompanies <= s.newTotalCompanies
  {
    RegistryStats(|companies|, RegionCount(companies), NewCount(companies, now), NewRegionCount(companies, now))
  }

  /** A company registered just now counts as new, and in the region counts exactly when its INN
      starts with "52". */
  lemma {:induction false} RegistryAfterInsert(companies: seq<Company>, c: Company, now: int)
    requires c.createdAt == now
    ensures var before := RegistryCounts(companies, now);
            var after := RegistryCounts(companies + [c], now);
            var d := if StartsWith(c.inn, RegionPrefix) then 1 else 0;
            after == RegistryStats(before.totalCompanies + 1, before.nnCompanies + d,
                                   before.newTotalCompanies + 1, before.newNnCompanies + d)
  {
    CountsAppend(companies, c, now);
  }

  lemma {:induction false} CountsAppend(companies: seq<Company>, c: Company, now: int)
    ensures RegionCount(companies + [c]) == RegionCount(companies) + (if FromRegion(c) then 1 else 0)
    ensures NewCount(companies + [c], now) == NewCount(companies, now) + (if IsNew(c, now) then 1 else 0)
    ensures NewRegionCount(companies + [c], now)
         == NewRegionCount(companies, now) + (if FromRegion(c) && IsNew(c, now) then 1 else 0)
  {
    if |companies| > 0 {
      assert (companies + [c])[1..] == companies[1..] + [c];
      CountsAppend(companies[1..], c, now);
    } else {
      assert (companies + [c])[1..] == [];
    }
  }

  /** `GET /api/operator/registry-stats`. */
  function RegistryStatsOf(companies: seq<Company>, header: Option<string>, signer: Jwt.Signer, now: int,
                           fault: bool): (r: Response)
    ensures VerifyOperator(header, signer).Refused? ==> r == VerifyOperator(header, signer).response
    ensures VerifyOperator(header, signer).Operator? && fault ==> r == Response(500, Message(RegistryError))
    ensures VerifyOperator(header, signer).Operator? && !fault ==> r == Response(200, Registry(RegistryCounts(companies, now)))
  {
    match VerifyOperator(header, signer)
    case Refused(response) => response
    case Operator(_) =>
      if fault then Response(500, Message(RegistryError)) else Response(200, Registry(RegistryCounts(companies, now)))
  }

  // ---------------------------------------------------------------------------
  // GET /api/operator/company-by-inn/:inn

  /** The first company whose text INN equals `String(parseInt(inn, 10))`. */
  function CompanyWithInn(companies: seq<Company>, inn: string): (r: Option<Company>)
    ensures r.Some? ==> r.value in companies && r.value.inn == inn
    ensures r.None? <==> forall c <- companies :: c.inn != inn
  {
    if |companies| == 0 then None
    else if companies[0].inn == inn then Some(companies[0])
    else CompanyWithInn(companies[1..], inn)
  }

  /** `GET /api/operator/company-by-inn/:inn`. The number `parseInt` yields is sent back as text. */
  function CompanyByInn(companies: seq<Company>, header: Option<string>, signer: Jwt.Signer, innParam: string,
                        fault: bool): (r: Response)
    ensures VerifyOperator(header, signer).Refused? ==> r == VerifyOperator(header, signer).response
    ensures VerifyOperator(header, signer).Operator? ==>
              && (ParseInt(innParam).None? ==> r == Response(400, Message(InnNotNumber)))
              && (ParseInt(innParam).Some? && fault ==> r == Response(500, Message(InternalError)))
              && (ParseInt(innParam).Some? && !fault ==>
                    var inn := IntString(ParseInt(innParam).value);
                    && (r.status == 404 <==> forall c <- companies :: c.inn != inn)
                    && (r.status == 404 ==> r.body == Message(InnNotFound))
                    && (r.status != 404 ==>
                          && r.status == 200 && r.body.CompanyFound?
                          && exists c <- companies :: c.inn == inn && r.body == CompanyFound(c.id, c.name, c.inn)))
  {
    match VerifyOperator(header, signer)
    case Refused(response) => response
    case Operator(_) =>
      match ParseInt(innParam)
      case None => Response(400, Message(InnNotNumber))
      case Some(n) =>
        if fault then Response(500, Message(InternalError))
        else match CompanyWithInn(companies, IntString(n))
          case None => Response(404, Message(InnNotFound))
          case Some(c) => Response(200, CompanyFound(c.id, c.name, c.inn))
  }

  /** Searching a company's own INN finds it when the INN is a canonical numeral. */
  lemma SearchFindsCanonicalInn(companies: seq<Company>, header: Option<string>, signer: Jwt.Signer, c: Company)
    requires VerifyOperator(header, signer).Operator?
    requires InnsUnique(companies) && c in companies && CanonicalNumeral(c.inn)
    ensures CompanyByInn(companies, header, signer, c.inn, false) == Response(200, CompanyFound(c.id, c.name, c.inn))
  {
    ParseIntCanonical(c.inn);
    var found := CompanyWithInn(companies, c.inn).value;
    var i :| 0 <= i < |companies| && companies[i] == found;
    var j :| 0 <= j < |companies| && companies[j] == c;
    assert i == j;
  }

  /** A stored INN with a leading zero is found by no search: `String(parseInt(..))` never
      writes one. */
  lemma LeadingZeroInnNeverFound(companies: seq<Company>, header: Option<string>, signer: Jwt.Signer,
                                 c: Company, innParam: string)
    requires VerifyOperator(header, signer).Operator?
    requires InnsUnique(companies) && c in companies && |c.inn| > 1 && c.inn[0] == '0'
    ensures CompanyByInn(companies, header, signer, innParam, false).body != CompanyFound(c.id, c.name, c.inn)
  {
    match ParseInt(innParam)
    case None =>
    case Some(n) =>
      var s := IntString(n);
      if n > 0 {
        assert s == NatString(n) && s[0] != '0';
      }
      assert s != c.inn;
  }

  // ---------------------------------------------------------------------------
  // GET /api/operator/company/:companyId/grants

  /** `WHERE company_id = $1`, in table order. */
  function GrantsOf(grants: seq<Grant>, companyId: int): (r: seq<Grant>)
    ensures forall g :: g in r <==> g in grants && g.companyId == companyId
  {
    if |grants| == 0 then []
    else (if grants[0].companyId == companyId then [grants[0]] else []) + GrantsOf(grants[1..], companyId)
  }

  function Entry(g: Grant): GrantEntry {
    GrantEntry(g.description, g.grantYear, g.grantAmount, g.confirmedAt)
  }

  function Entries(grants: seq<Grant>): (r: seq<GrantEntry>)
    ensures |r| == |grants|
    ensures forall k :: 0 <= k < |r| ==> r[k] == Entry(grants[k])
  {
    if |grants| == 0 then [] else [Entry(grants[0])] + Entries(grants[1..])
  }

  function ConfirmedAtKey(e: GrantEntry): int { e.confirmedAt }

  /** `GET /api/operator/company/:companyId/grants`. The path segment is cast by Postgres. */
  function GrantHistoryOf(grants: seq<Grant>, header: Option<string>, signer: Jwt.Signer, companyIdParam: string,
                          fault: bool): (r: Response)
    ensures VerifyOperator(header, signer).Refused? ==> r == VerifyOperator(header, signer).response
    ensures VerifyOperator(header, signer).Operator? && (PgInteger(companyIdParam).None? || fault) ==>
              r == Response(500, Message(GrantsError))
    ensures VerifyOperator(header, signer).Operator? && PgInteger(companyIdParam).Some? && !fault ==>
              && r.status == 200 && r.body.GrantHistory?
              && multiset(r.body.entries) == multiset(Entries(GrantsOf(grants, PgInteger(companyIdParam).value)))
              && SortedDesc(r.body.entries, ConfirmedAtKey)
  {
    match VerifyOperator(header, signer)
    case Refused(response) => response
    case Operator(_) =>
      match PgInteger(companyIdParam)
      case None => Response(500, Message(GrantsError))
      case Some(id) =>
        if fault then Response(500, Message(GrantsError))
        else Response(200, GrantHistory(SortDesc(Entries(GrantsOf(grants, id)), ConfirmedAtKey)))
  }

  /** Every entry of a history is a grant of that company, and every grant of it is listed. */
  lemma HistoryIsTheCompanys(grants: seq<Grant>, companyId: int, entries: seq<GrantEntry>)
    requires multiset(entries) == multiset(Entries(GrantsOf(grants, companyId)))
    ensures forall k :: 0 <= k < |entries| ==> exists g <- grants :: g.companyId == companyId && entries[k] == Entry(g)
    ensures forall g <- grants :: g.companyId == companyId ==> Entry(g) in entries
  {
    var of := GrantsOf(grants, companyId);
    forall k | 0 <= k < |entries|
      ensures exists g <- grants :: g.companyId == companyId && entries[k] == Entry(g)
    {
      InPermutation(entries, Entries(of), k);
      var n :| 0 <= n < |of| && Entries(of)[n] == entries[k];
      assert of[n] in of;
    }
    forall g | g in grants && g.companyId == companyId
      ensures Entry(g) in entries
    {
      var n :| 0 <= n < |of| && of[n] == g;
      assert Entries(of)[n] == Entry(g);
      var p := PositionInPermutation(entries, Entries(of), Entry(g));
    }
  }

  // ---------------------------------------------------------------------------
  // POST /api/operator/confirm-support

  /** The `measure` object of the request; None is null or missing. */
  datatype Measure = Measure(
    measureType: Option<string>,
    description: Option<string>,
    grantYear: Option<string>,
    grantAmount: Option<string>)

  datatype Confirmation = Confirmation(companyId: Option<int>, measure: Option<Measure>)

  predicate ConfirmationComplete(req: Confirmation) {
    && PresentNumber(req.companyId) && req.measure.Some?
    && Present(req.measure.value.measureType) && Present(req.measure.value.description)
    && Present(req.measure.value.grantYear) && Present(req.measure.value.grantAmount)
  }

  /** The row the insert appends, stamped with the operator's id and the time. */
  function ConfirmedGrant(id: int, req: Confirmation, operatorId: int, now: int): (g: Grant)
    requires ConfirmationComplete(req)
    ensures g.id == id && g.companyId == req.companyId.value && g.confirmedBy == operatorId && g.confirmedAt == now
    ensures g.measureType == req.measure.value.measureType.value && g.description == req.measure.value.description.value
    ensures g.grantYear == req.measure.value.grantYear.value && g.grantAmount == req.measure.value.grantAmount.value
  {
    var m := req.measure.value;
    Grant(id, req.companyId.value, m.measureType.value, m.description.value, m.grantAmount.value,
          m.grantYear.value, operatorId, now)
  }

  /** `POST /api/operator/confirm-support`: validation, then one appended row. */
  method ConfirmSupport(db: Database, header: Option<string>, signer: Jwt.Signer, req: Confirmation, now: int,
                        fault: bool) returns (resp: Response)
    requires db.Valid()
    modifies db`grants, db`grantSeq
    ensures db.Valid()
    ensures VerifyOperator(header, signer).Refused? ==>
              resp == VerifyOperator(header, signer).response && db.grants == old(db.grants)
    ensures VerifyOperator(header, signer).Operator? && !ConfirmationComplete(req) ==>
              resp == Response(400, Message(MissingMeasureFields)) && db.grants == old(db.grants)
    ensures VerifyOperator(header, signer).Operator? && ConfirmationComplete(req) && fault ==>
              resp == Response(500, Message(ConfirmError)) && db.grants == old(db.grants)
    ensures VerifyOperator(header, signer).Operator? && ConfirmationComplete(req) && !fault ==>
              && db.grants == old(db.grants) + [ConfirmedGrant(old(db.grantSeq), req, VerifyOperator(header, signer).claims.id, now)]
              && resp == Response(201, Message(SupportConfirmed))
  {
    var gate := VerifyOperator(header, signer);
    if gate.Refused? {
      return gate.response;
    }
    if !ConfirmationComplete(req) {
      return Response(400, Message(MissingMeasureFields));
    }
    if fault {
      return Response(500, Message(ConfirmError));
    }
    var g := ConfirmedGrant(db.grantSeq, req, gate.claims.id, now);
    db.grantSeq := db.grantSeq + 1;
    db.grants := db.grants + [g];
    resp := Response(201, Message(SupportConfirmed));
  }

  /** The log keeps duplicates: the same confirmation sent twice adds two rows, which differ
      only in their id and time. */
  method ConfirmTwice(db: Database, header: Option<string>, signer: Jwt.Signer, req: Confirmation, t1: int, t2: int)
    returns (first: Response, second: Response)
    requires db.Valid() && VerifyOperator(header, signer).Operator? && ConfirmationComplete(req)
    modifies db`grants, db`grantSeq
    ensures first.status == 201 && second.status == 201
    ensures |db.grants| == |old(db.grants)| + 2
    ensures var a := db.grants[|db.grants| - 2];
            var b := db.grants[|db.grants| - 1];
            a.id < b.id && a.(id := b.id, confirmedAt := b.confirmedAt) == b
  {
    first := ConfirmSupport(db, header, signer, req, t1, false);
    second := ConfirmSupport(db, header, signer, req, t2, false);
  }
}
