# IT marketplace: request handling and client flows

This project is a Dafny model of the request handling of the IT marketplace's three Express
services and of the browser flows that drive them:

- **users service.** `POST /register`, `POST /login` and the internal rollback
  `DELETE /users/:id`, over a users table.
- **companies service.** The bearer-token gate, `POST /companies`, the support-survey upsert and
  the supplier's own profile (`GET` and `PUT /api/companies/me`).
- **operator service.** The operator role gate, the support and registry statistics, the lookup
  by INN, a company's grant history and the append-only confirmation of a support measure.
- **supplier registration form.** It registers the user and creates the company. It deletes the
  user again when the company is refused. Then it opens the support survey (INNs starting with
  `52`) or logs the supplier in.
- **support survey.** The checkbox toggle behind its three lists, and the submit that saves the
  answers and only then logs in.
- **operator's confirmation modal.** A form state machine: it finds a company by INN, shows its
  grant history and confirms one federal measure.
- **application shell.** The session held in memory and in `localStorage`, restored at startup,
  and the routing after a login and a logout.

All tables live in one `Store.Database` object. Its `Valid()` invariant is the schema's
uniqueness:

- user ids and e-mails;
- company ids, INNs and owners;
- one contact row and one survey row per company;
- grant ids;
- every id below its SERIAL counter.

Every handler that writes keeps `Valid()`. A handler returns a `Response` (status and body).

The following are parameters of the model:

- the database's own failures (`fault`, or `TxFault` for the steps of the `PUT /me`
  transaction);
- the clock (`now`);
- bcrypt (`Bcrypt.Hasher`, assumed only to verify what it hashed);
- jsonwebtoken (`Jwt.Signer`, assumed to verify what it signed);
- `JSON.stringify`/`JSON.parse` (`AppSession.Codec`).

On the client, each `fetch` is replaced by the reply it produces. `Client.Reply` is either a
rejection or a status with the body's `message` and payload. The forms record the requests they
send and the callbacks they make, so the order of requests is part of each contract.
`RegistrationFlow` runs the registration form against the users and companies services over one
database. `LoginFlow` follows a login from the users service through the shell's routing to the
operator service's gate.

Points where the behaviour is easy to misread, stated as the code has it:

- The id of a user or company is drawn from its SERIAL sequence before the unique check, so a
  refused insert still consumes an id.
- `POST /companies` answers a second company for the same user with the same 409 as a taken INN.
  This assumes `companies.user_id` is unique, as the profile endpoints' one-company-per-user
  reading needs.
- The companies gate answers 401 for a header with no space and 403 for an empty header. The
  operator gate answers 401 only for a missing or empty header.
- The model assumes `companies.inn` is a text column. The registry statistics filter it with
  `inn LIKE '52%'` (services/operator-service/index.js:126), which Postgres accepts only on text,
  while the comment above the search by INN (services/operator-service/index.js:154) says the
  column holds a number. The schema is not part of this model; the model follows the `LIKE`.
  Under that assumption `company-by-inn` compares the stored INN text with the decimal form of
  `parseInt(inn)`, so an INN stored with a leading zero is never found
  (`OperatorService.LeadingZeroInnNeverFound`). The bare numeral of any other stored INN finds
  its company (`OperatorService.SearchFindsCanonicalInn`).
- In the confirmation modal, a failed answer other than 403 always shows `Ошибка сервера:
  <status>`. The inner `catch` replaces the message the body carried.
- In the registration form, a company request that rejects sends no compensating DELETE. A
  DELETE that rejects replaces the company's error with its own.

## Model

| member | source | states |
|---|---|---|
| Common.Split | services/operator-service/index.js:21 | `split(' ')` yields at least one piece, and no piece contains the separator |
| Common.JoinSplit | services/operator-service/index.js:21 | joining the pieces of a split with the separator gives back the original text |
| Common.SecondWord | services/companies-service/index.js:20 | `split(' ')[1]` exists exactly when the header contains a space, and it never contains one |
| Common.SecondWordOfBearer | frontend/src/features/5_Operator/components/ConfirmSupportModal.tsx:70 | the token a client sends as `Bearer <token>` is the token the services read back, for any token without a space |
| Common.NatString | frontend/src/features/4_Supplier/components/RegisterSupplierForm.tsx:67 | the decimal text of a number is all digits, with no leading zero |
| Common.IntString | frontend/src/features/4_Supplier/components/RegisterSupplierForm.tsx:67 | `${id}` is non-empty, has no space and starts with a minus sign exactly for a negative number; it reads back through Common.ParseIntString and Common.PgIntegerOfIntString |
| Common.NatStringValue | frontend/src/features/4_Supplier/components/RegisterSupplierForm.tsx:67 | the decimal text of a number reads back as that number |
| Common.ParseInt | services/operator-service/index.js:155-156 | `parseInt(s, 10)` is NaN exactly when no digit follows the leading white space and optional sign |
| Common.ParseIntString | services/operator-service/index.js:155 | `parseInt` of a number's decimal text gives back the number |
| Common.ParseIntCanonical | services/operator-service/index.js:155 | a numeral without a leading zero parses to its value, and the value prints back as the numeral |
| Common.PgInteger | services/users-service/index.js:130 | a path segment Postgres casts to an integer is never empty; what it reads is stated by Common.PgIntegerAgreesWithParseInt and Common.PgIntegerOfIntString |
| Common.PgIntegerAgreesWithParseInt | services/users-service/index.js:130 | any segment Postgres reads as an integer is read as the same number by `parseInt`, and a canonical numeral means its digits to both |
| Common.PgIntegerOfIntString | services/users-service/index.js:130 | an id interpolated into `/users/${id}` is cast back to the same id |
| Tables.Lookup | services/companies-service/index.js:130 | the row found by a key holds that key and is in the table; nothing is found exactly when no row holds it |
| Tables.IndexOfKey | services/companies-service/index.js:160 | `WHERE user_id = $1` finds the first row with that key, or reports that no row has it |
| Tables.Upsert | services/companies-service/index.js:92-104 | `INSERT … ON CONFLICT DO UPDATE` adds a row only for a new key and always leaves the given row in the table |
| Tables.UpsertLookup | services/companies-service/index.js:96-103 | after an upsert, the key reads the new row and every other key reads what it read before |
| Tables.UpsertKeepsKeyUnique | services/companies-service/index.js:96 | an upsert keeps the conflict key unique |
| Ordering.SortDesc | services/operator-service/index.js:177 | `ORDER BY … DESC` is a permutation of its rows, in non-increasing key order |
| Ordering.InsertDesc | services/operator-service/index.js:92 | inserting into a descending list adds just that row and keeps the order |
| Ordering.Take | services/operator-service/index.js:93 | `LIMIT n` keeps the first n rows, or all of them when there are fewer |
| Ordering.Dedup | services/operator-service/index.js:91 | `GROUP BY` yields each value that occurs exactly once |
| Ordering.DedupAppendPresent | services/operator-service/index.js:101 | a value that already occurs adds no group |
| Store.Database.Valid | services/companies-service/index.js:66-70 | the invariant every writing handler keeps: ids, e-mails, INNs and owners unique, one contact and one survey row per company, every id below its sequence counter; the 23505 branch relies on it |
| Store.UserByEmail | services/users-service/index.js:84-85 | `SELECT … WHERE email = $1` returns a user with that e-mail, and none exactly when no user has it |
| Store.UserByEmailUnique | services/users-service/index.js:84-85 | with unique e-mails, a user's e-mail finds exactly that user |
| Store.WithoutUser | services/users-service/index.js:130 | `DELETE … WHERE id = $1` keeps exactly the users with another id, and changes nothing when no user has it |
| Store.InsertUserKeepsUnique | services/users-service/index.js:54-57 | inserting a user with a free e-mail and a fresh id keeps ids and e-mails unique |
| Store.WithoutUserKeepsUnique | services/users-service/index.js:130 | deleting by id keeps ids and e-mails unique |
| Store.DeleteUndoesInsert | frontend/src/features/4_Supplier/components/RegisterSupplierForm.tsx:67 | deleting the id just inserted restores the users table exactly |
| UsersService.NewUser | services/users-service/index.js:50-56 | the inserted row holds the e-mail, role and time as given and a hash that the sound hasher accepts for the submitted password |
| UsersService.Register | services/users-service/index.js:35-72 | a missing field gives 400, an unknown role gives 400, a database failure gives 500 and a taken e-mail gives 409, each leaving the table unchanged. Otherwise it appends one row holding only the hash of the password and answers 201 with id, email, role and created_at |
| UsersService.Login | services/users-service/index.js:74-124 | missing fields give 400 and a failure gives 500. An unknown e-mail and a wrong password give the same 401. The answer is 200 exactly when the e-mail exists and the password matches, with a token signed over id = userId = the user's id and its role for one hour, and user = {id, role} |
| UsersService.LoginAfterRegister | services/users-service/index.js:35-118 | logging in with the registered password succeeds as the stored user, with the token for its id and role |
| UsersService.RegisterThenLogin | services/users-service/index.js:35-118 | register followed by login with the same password gives 201 then 200, with the same id and role |
| UsersService.DeleteUser | services/users-service/index.js:127-139 | removes exactly the rows with that id; 200 if one existed, else 404 with nothing changed; 500 on a failure or an id Postgres cannot cast |
| UsersService.RemovingShrinks | services/users-service/index.js:131 | the affected-row count is positive whenever a user with that id exists |
| CompaniesService.BearerToken | services/companies-service/index.js:19-20 | no header gives no token, an empty header gives the empty token, a non-empty header gives one exactly when it contains a space, and the token never contains a space |
| CompaniesService.AuthenticateToken | services/companies-service/index.js:18-29 | no bearer token gives 401, a token that fails verification gives 403. The handler runs exactly when verification succeeds, with the decoded claims |
| CompaniesService.IssuedTokenAdmitted | services/companies-service/index.js:18-29 | a header carrying a token the service signed is admitted with that token's payload |
| CompaniesService.MalformedHeaders | services/companies-service/index.js:19-22 | a non-empty header without a space gives 401, and an empty header gives 403 |
| CompaniesService.NewCompanyRow | services/companies-service/index.js:60-63 | the inserted row holds the given user_id, name, full_name, inn and region |
| CompaniesService.Conflicts | services/companies-service/index.js:68 | the unique violation 23505: some company already holds the INN or the owner. CompaniesService.InsertCompanyKeepsUnique shows that an insert without it keeps both constraints |
| CompaniesService.CreateCompany | services/companies-service/index.js:43-73 | missing user_id, name or inn gives 400. A failure gives 500, and a taken INN or owner gives 409, with the table unchanged each time. Otherwise the row is appended and returned with 201 |
| CompaniesService.InsertCompanyKeepsUnique | services/companies-service/index.js:60-70 | inserting a company with a free INN and owner and a fresh id keeps the table's unique columns unique |
| CompaniesService.SurveyRow | services/companies-service/index.js:92-106 | the stored answer holds the company id and the six answers as submitted |
| CompaniesService.SaveSurvey | services/companies-service/index.js:75-116 | an empty id gives 400 (a guard Express routing never reaches), and a failure or uncastable id gives 500, with nothing written. Otherwise the answer is upserted on company_id and returned with 201 |
| CompaniesService.SurveyResubmission | services/companies-service/index.js:96-103 | a second submission for a company adds no row and its answers replace the first ones |
| CompaniesService.ViewOf | services/companies-service/index.js:125-132 | the profile is the company with its contact's fields, all null when it has no contact |
| CompaniesService.GetOwnCompany | services/companies-service/index.js:121-144 | after the gate, 404 exactly when no company belongs to the token's userId; otherwise 200 with the caller's own company and contact; 500 on a failure |
| CompaniesService.ApplyProfile | services/companies-service/index.js:167-178 | the update sets the nine listed columns and updated_at and keeps id, user_id, inn and created_at |
| CompaniesService.ContactRow | services/companies-service/index.js:182-194 | the upserted contact is keyed by the caller's company and holds the four submitted contact fields and the update time |
| CompaniesService.UpdateOwnCompany | services/companies-service/index.js:147-206 | after the gate, no company gives 404, and a failure at any statement of the transaction gives 500. Any answer but 200 leaves companies and contacts as they were. On 200 the caller's company is updated and its contact upserted |
| CompaniesService.ReadAfterUpdate | services/companies-service/index.js:121-206 | after a profile update, reading the profile gives the updated company with the submitted contact fields |
| OperatorService.VerifyOperator | services/operator-service/index.js:15-34 | a missing header gives 401, an invalid token gives 403, a role other than operator gives 403. The handler runs exactly when the token verifies with role operator, with the decoded claims |
| OperatorService.IssuedTokenAtOperatorGate | services/operator-service/index.js:15-34 | a token the service signed passes the gate exactly when its role is operator |
| OperatorService.AwareCount | services/operator-service/index.js:78-81 | the aware count is at most the number of answers; OperatorService.AwareCountCounts says which answers it counts |
| OperatorService.AwareCountCounts | services/operator-service/index.js:78-81 | the aware count is the number of rows whose `is_aware` is true, not false and not NULL, in any order |
| OperatorService.AwareCountAfterSave | services/companies-service/index.js:96-103 | saving a company's survey changes the aware count by the new answer's awareness less that of the answer it replaces, if any, so a resubmission never counts a company twice |
| OperatorService.AllInterests | services/operator-service/index.js:86-90 | every unnested interest comes from some answer's list, and every interest of every answer's list is among them |
| OperatorService.Tally | services/operator-service/index.js:84-91 | each interest is paired with the number of its occurrences across all answers |
| OperatorService.TopInterests | services/operator-service/index.js:84-95 | at most three interests, in non-increasing count |
| OperatorService.TopInterestsCounted | services/operator-service/index.js:84-95 | each listed interest occurs in the answers, its count is its number of occurrences, and no interest is listed twice |
| OperatorService.TopInterestsMaximal | services/operator-service/index.js:84-95 | an interest left out of the top list occurs no more often than the third one listed |
| OperatorService.TallyDistinct | services/operator-service/index.js:91 | grouping lists each interest once |
| OperatorService.CompanyCount | services/operator-service/index.js:99 | `COUNT(DISTINCT company_id)` of a description is zero exactly when no grant has that description |
| OperatorService.Groups | services/operator-service/index.js:98-101 | each description is paired with its number of distinct companies |
| OperatorService.ConfirmedGrantsStats | services/operator-service/index.js:98-104 | the groups come in non-increasing company count |
| OperatorService.ConfirmedGrantsGrouped | services/operator-service/index.js:98-104 | each group is a description that occurs, once, with its count of distinct companies |
| OperatorService.ConfirmedGrantsCovered | services/operator-service/index.js:98-104 | every confirmed description has its group |
| OperatorService.ReconfirmKeepsStats | services/operator-service/index.js:98-104 | confirming a description again for the same company leaves the statistics unchanged |
| OperatorService.ReconfirmKeepsCount | services/operator-service/index.js:99 | a repeated (description, company) pair raises no group's count |
| OperatorService.NewCompanyRaisesCount | services/operator-service/index.js:99 | a company new to a description raises that description's count by one |
| OperatorService.SupportStatsOf | services/operator-service/index.js:74-116 | after the gate, 200 with the aware count, top interests and grant groups; 500 on a failure |
| OperatorService.FromRegion | services/operator-service/index.js:126 | `inn LIKE '52%'`: the filter the region counts apply, proved about in OperatorService.CountsAppend and OperatorService.RegistryAfterInsert |
| OperatorService.IsNew | services/operator-service/index.js:130 | `created_at >= NOW() - INTERVAL '30 days'`: the filter the new-company counts apply, proved about in the same lemmas |
| OperatorService.RegionCount | services/operator-service/index.js:126 | at most the number of companies |
| OperatorService.NewCount | services/operator-service/index.js:130 | at most the number of companies |
| OperatorService.NewRegionCount | services/operator-service/index.js:134 | at most both the region-52 count and the new-company count |
| OperatorService.RegistryCounts | services/operator-service/index.js:119-142 | total = number of companies, nn ≤ total, newTotal ≤ total, newNn ≤ nn and newNn ≤ newTotal |
| OperatorService.RegistryAfterInsert | services/operator-service/index.js:122-135 | a company created now adds one to total and newTotal, and one to nn and newNn exactly when its INN starts with 52 |
| OperatorService.CountsAppend | services/operator-service/index.js:126-134 | each filtered count grows by one exactly for a row the filter accepts |
| OperatorService.RegistryStatsOf | services/operator-service/index.js:119-148 | after the gate, 200 with the four counts; 500 with the registry message on a failure |
| OperatorService.CompanyWithInn | services/operator-service/index.js:160 | the row found has that INN; none is found exactly when no company has it |
| OperatorService.CompanyByInn | services/operator-service/index.js:151-170 | after the gate, NaN gives 400 and a failure gives 500. 404 exactly when no company has the parsed number's INN, otherwise 200 with that company's id, name and inn |
| OperatorService.SearchFindsCanonicalInn | services/operator-service/index.js:155-165 | searching for a stored INN without a leading zero finds its company |
| OperatorService.LeadingZeroInnNeverFound | services/operator-service/index.js:155-160 | no search string finds a company whose INN starts with 0 |
| OperatorService.GrantsOf | services/operator-service/index.js:177 | exactly the grants of that company |
| OperatorService.Entries | services/operator-service/index.js:177 | one entry per grant, holding its description, year, amount and time |
| OperatorService.GrantHistoryOf | services/operator-service/index.js:173-185 | after the gate, the company's grants and only those, newest first; 500 on a failure or an uncastable id |
| OperatorService.HistoryIsTheCompanys | services/operator-service/index.js:176-180 | every entry of the history comes from a grant of that company, and every such grant is listed |
| OperatorService.ConfirmedGrant | services/operator-service/index.js:199-219 | the new row holds the request's company, measure fields, the operator's id and the time |
| OperatorService.ConfirmSupport | services/operator-service/index.js:189-226 | a missing field gives 400 and a failure gives 500, with nothing appended. Otherwise exactly one row is appended, stamped with the operator id from the token, and the answer is 201 |
| OperatorService.ConfirmTwice | services/operator-service/index.js:189-221 | two identical confirmations give two rows that differ only in id and time |
| Client.FailureMessage | frontend/src/features/4_Supplier/components/RegisterSupplierForm.tsx:47-48 | what the user reads comes from the reply or is the fallback, a message the server sent is never replaced, and the error is never blank when the fallback is not and a thrown error has a reason |
| Client.BearerHeader | frontend/src/features/5_Operator/components/ConfirmSupportModal.tsx:70 | the header starts with `Bearer `; what the services read back from it is Client.BearerHeaderReadBack |
| Client.BearerHeaderReadBack | frontend/src/features/5_Operator/components/ConfirmSupportModal.tsx:70 | a service taking `split(' ')[1]` reads back the very token the page held when it has no space, and `null` when the page held none |
| AppSession.Get | frontend/src/app/App.tsx:77-78 | a stored value is returned exactly when the key is present; how it relates to the writes is AppSession.StorageReadBack |
| AppSession.StorageReadBack | frontend/src/app/App.tsx:92-104 | after `setItem` the key reads back its value, after `removeItem` it reads nothing, and every other key reads as before |
| AppSession.LandingPath | frontend/src/app/App.tsx:33-37 | role operator lands on /operator and every other role on /profile; LoginFlow.LandingMatchesOperatorGate ties this to the operator service's gate |
| LoginFlow.LandingMatchesOperatorGate | frontend/src/app/App.tsx:30-38 | after a successful `/login`, the shell routes to /operator exactly when the issued token, sent back as `Bearer <token>`, passes `verifyOperator`, with the logged-in user's id among the claims; everyone else lands on /profile |
| AppSession.AuthSession.constructor | frontend/src/app/App.tsx:72-73 | the session starts with no token and no user over the existing storage |
| AppSession.AuthSession.Login | frontend/src/app/App.tsx:92-97 | stores the token and the stringified user and holds both |
| AppSession.AuthSession.Logout | frontend/src/app/App.tsx:99-104 | removes both keys and clears both values |
| AppSession.AuthSession.Restore | frontend/src/app/App.tsx:75-90 | restores only when both keys hold non-empty text and the user parses. A parse failure removes both keys. Otherwise nothing changes |
| AppSession.ReloadAfterLogin | frontend/src/app/App.tsx:75-97 | the storage a login leaves restores the same token and user after a reload |
| AppSession.ReloadAfterLogout | frontend/src/app/App.tsx:75-104 | after a logout a reload restores nothing |
| AppSession.AppContent.constructor | frontend/src/app/App.tsx:25-27 | the modal starts closed |
| AppSession.AppContent.OpenLoginModal | frontend/src/app/App.tsx:48 | the header's login button opens the modal |
| AppSession.AppContent.HandleLoginSuccess | frontend/src/app/App.tsx:30-38 | logs in, closes the modal and routes by role |
| AppSession.AppContent.HandleLogout | frontend/src/app/App.tsx:40-43 | logs out and navigates to / |
| SupplierRegistration.CompanyName | frontend/src/features/4_Supplier/components/RegisterSupplierForm.tsx:57 | the placeholder name starts with `Компания ` and the INN can be read back from what follows |
| SupplierRegistration.CompanyNameInjective | frontend/src/features/4_Supplier/components/RegisterSupplierForm.tsx:57 | companies registered with different INNs never get the same placeholder name |
| SupplierRegistration.CompanyRequest | frontend/src/features/4_Supplier/components/RegisterSupplierForm.tsx:54-62 | the request carries the new user id, the name and the INN. full_name and region are set exactly when the INN starts with 52 |
| SupplierRegistration.RegisterSupplierForm.constructor | frontend/src/features/4_Supplier/components/RegisterSupplierForm.tsx:17-26 | step 1, no company, empty fields and error |
| SupplierRegistration.RegisterSupplierForm.Fill | frontend/src/features/4_Supplier/components/RegisterSupplierForm.tsx:28-31 | the inputs set the form's fields |
| SupplierRegistration.RegisterSupplierForm.HandleSubmit | frontend/src/features/4_Supplier/components/RegisterSupplierForm.tsx:33-98 | a mismatch or missing agreement sends nothing, and a failed registration sends no company. A company refused by the server is followed by exactly one DELETE of the new id and shows the company error. For an INN starting with 52 the form moves to step 2 without logging in; any other INN logs in, and a failed login shows the prefixed message with step unchanged |
| SupplierRegistration.RegisterSupplierForm.ShowsSurvey | frontend/src/features/4_Supplier/components/RegisterSupplierForm.tsx:100 | the survey replaces the form at step 2 with a created company; when that happens is stated by SupplierRegistration.SubmitOnce |
| SupplierRegistration.SubmitOnce | frontend/src/features/4_Supplier/components/RegisterSupplierForm.tsx:33-107 | the survey shows exactly when both creations succeed for an INN starting with 52. A DELETE is sent exactly when the server refused the company. The form logs in at most once, and never when the survey shows |
| SupportSurvey.Without | frontend/src/features/4_Supplier/components/SupportSurvey.tsx:30 | the filter removes every occurrence of the value and keeps every other value as often as before |
| SupportSurvey.WithoutAppend | frontend/src/features/4_Supplier/components/SupportSurvey.tsx:30 | the filter keeps the order of the rest |
| SupportSurvey.WithoutAbsent | frontend/src/features/4_Supplier/components/SupportSurvey.tsx:30 | filtering an absent value changes nothing |
| SupportSurvey.Toggle | frontend/src/features/4_Supplier/components/SupportSurvey.tsx:28-31 | an absent value is appended at the end, and a present one is removed everywhere. The value's membership flips and no other value's membership changes |
| SupportSurvey.ToggleTwice | frontend/src/features/4_Supplier/components/SupportSurvey.tsx:28-31 | toggling twice restores the value's membership, and from absent restores the list itself |
| SupportSurvey.ToggleKeepsDistinct | frontend/src/features/4_Supplier/components/SupportSurvey.tsx:28-31 | a list without repeats stays without repeats |
| SupportSurvey.DistinctWithout | frontend/src/features/4_Supplier/components/SupportSurvey.tsx:30 | filtering keeps a list without repeats |
| SupportSurvey.SupportSurveyForm.constructor | frontend/src/features/4_Supplier/components/SupportSurvey.tsx:17-26 | every answer starts unset or empty |
| SupportSurvey.SupportSurveyForm.HandleCheckboxChange | frontend/src/features/4_Supplier/components/SupportSurvey.tsx:28-32 | toggles the value in the named list only |
| SupportSurvey.SupportSurveyForm.SetIsAware | frontend/src/features/4_Supplier/components/SupportSurvey.tsx:87-88 | the radio button sets the answer |
| SupportSurvey.SupportSurveyForm.SetStartupPlans | frontend/src/features/4_Supplier/components/SupportSurvey.tsx:106-108 | the radio button sets the answer |
| SupportSurvey.SupportSurveyForm.SetAttractingSpecialists | frontend/src/features/4_Supplier/components/SupportSurvey.tsx:116-117 | the radio button sets the answer |
| SupportSurvey.SupportSurveyForm.SetUsedSupport | frontend/src/features/4_Supplier/components/SupportSurvey.tsx:125-126 | the radio button sets the answer and touches neither list |
| SupportSurvey.SupportSurveyForm.SurveyData | frontend/src/features/4_Supplier/components/SupportSurvey.tsx:39-46 | the body always sends the three lists as arrays, never null, holding what is ticked, and the awareness answer as given |
| SupportSurvey.SupportSurveyForm.HandleSubmit | frontend/src/features/4_Supplier/components/SupportSurvey.tsx:34-72 | the survey is posted first. A failed save shows its error and sends no login. Login is sent only after the save is ok, and `onLoginSuccess` gets the login's token and user only when login is ok |
| SupportSurvey.HiddenAnswersSubmitted | frontend/src/features/4_Supplier/components/SupportSurvey.tsx:39-46 | a federal measure ticked before answering "no" is still submitted |
| ConfirmSupport.ServerError | frontend/src/features/5_Operator/components/ConfirmSupportModal.tsx:85 | the message starts with `Ошибка сервера: ` and `parseInt` of what follows gives back the status |
| ConfirmSupport.ServerErrorInjective | frontend/src/features/5_Operator/components/ConfirmSupportModal.tsx:85 | different statuses are reported with different messages |
| ConfirmSupport.ConfirmSupportModal.constructor | frontend/src/features/5_Operator/components/ConfirmSupportModal.tsx:27-38 | every field starts at its initial value |
| ConfirmSupport.ConfirmSupportModal.ResetState | frontend/src/features/5_Operator/components/ConfirmSupportModal.tsx:40-51 | every field returns to its initial value |
| ConfirmSupport.ConfirmSupportModal.HandleClose | frontend/src/features/5_Operator/components/ConfirmSupportModal.tsx:53-56 | resets the form, then calls `onClose` once |
| ConfirmSupport.ConfirmSupportModal.SetInn | frontend/src/features/5_Operator/components/ConfirmSupportModal.tsx:182 | the input sets the INN |
| ConfirmSupport.ConfirmSupportModal.HandleRadioChange | frontend/src/features/5_Operator/components/ConfirmSupportModal.tsx:111-113 | selects the measure |
| ConfirmSupport.ConfirmSupportModal.SetGrantYear | frontend/src/features/5_Operator/components/ConfirmSupportModal.tsx:241 | the input sets the year |
| ConfirmSupport.ConfirmSupportModal.SetGrantAmount | frontend/src/features/5_Operator/components/ConfirmSupportModal.tsx:250 | the input sets the amount |
| ConfirmSupport.ConfirmSupportModal.ToggleHistory | frontend/src/features/5_Operator/components/ConfirmSupportModal.tsx:201 | the header folds or unfolds the history |
| ConfirmSupport.ConfirmSupportModal.HandleSearch | frontend/src/features/5_Operator/components/ConfirmSupportModal.tsx:58-109 | an empty INN only sets the error and sends nothing. Otherwise the errors, company and history are cleared and the lookup is sent. A 403 logs out. Any other failure shows the status, and a rejection shows its reason. A found company stays found whatever the history request gives; a refused history leaves it empty without an error |
| ConfirmSupport.ConfirmSupportModal.HandleSubmit | frontend/src/features/5_Operator/components/ConfirmSupportModal.tsx:115-168 | an incomplete form only sets the validation error and sends nothing. Otherwise one request is sent with measureType federal and the selected measure as description. Success calls `onSuccess` once and resets every field. A 403 logs out, and any other failure shows the status and keeps the fields |
| ConfirmSupport.ConfirmThenReopen | frontend/src/features/5_Operator/components/ConfirmSupportModal.tsx:115-161 | after a successful confirmation the form is as freshly opened, and the request named the chosen measure for the found company |
| RegistrationFlow.CreateOrUndo | frontend/src/features/4_Supplier/components/RegisterSupplierForm.tsx:51-69 | a company the database refuses is answered 409, and the compensating DELETE restores the users table. Otherwise the company is appended for the new user |
| RegistrationFlow.Serve | frontend/src/features/4_Supplier/components/RegisterSupplierForm.tsx:40-94 | the services' replies to the form's requests, and their effect on the database, for a taken e-mail, a refused company and a success |
| RegistrationFlow.SignUpSupplier | frontend/src/features/4_Supplier/components/RegisterSupplierForm.tsx:33-98 | a taken e-mail or a refused company leaves users and companies as they were and shows the service's message. Otherwise one user and its company are added; an INN starting with 52 shows the survey, and any other logs in with the token signed for the new user |

## Left out

- `GET /` on each service, `GET /companies` on the companies and operator services, and
  `GET /companies/region/:regionName`: plain listings with no rule beyond the query.
- Connection pooling and the open transaction that the 404 path of `PUT /api/companies/me`
  leaves behind: it returns inside `BEGIN` without `ROLLBACK`. In the model, that path answers
  404 and writes nothing; the state of the pooled connection is not modelled.
- Concurrency between requests, including two registrations racing for the same INN: every
  request is a step on one database.
- Postgres's constraint errors other than a unique violation, and foreign keys (a company whose
  user was deleted): database failures are the `fault` parameter.
- The cryptography of bcrypt and jsonwebtoken, and token expiry: the hasher and signer are
  parameters, and the one-hour expiry is only the constant passed to `sign`.
- OperatorService.TopInterests: the order among interests with equal counts and which of them
  survives `LIMIT 3` are fixed by the model's sort and are not claimed, because Postgres leaves
  them unspecified.
- OperatorService.ConfirmedGrantsStats: the order among groups with equal counts is likewise
  left unclaimed.
- Common.ParseInt: only the ASCII white space (space, tab, line feed, carriage return, vertical
  tab, form feed) is skipped, not the other Unicode spaces. The loss of precision above 2^53 is
  not modelled.
- Common.PgInteger: white space around the path segment and the range of a 32-bit `integer`
  column are not modelled. An out-of-range id reads as an absent one rather than a failure.
- OperatorService.ConfirmSupport: the casts Postgres applies to `grant_year` and `grant_amount`
  are not modelled. Both are kept as the submitted text, so a year such as `abc`, which the
  database refuses with a 500, is stored and answered 201 in the model; a refused cast is one of
  the failures folded into `fault`.
- CompaniesService.UpdateOwnCompany: `foundation_year` is an optional integer in the model. The
  profile form can send an empty string or free text, which Postgres either casts or refuses;
  that cast is not modelled, and a refusal is one of the failures folded into `fault`.
- OperatorService.SupportStatsOf: `count` and `company_count` are bigints, which reach the client
  as decimal text; the model holds them as natural numbers.
- OperatorService.CompanyByInn: the search assumes a text `inn` column, as stated above; against
  a numeric column the comparison would be numeric and leading zeros would not matter.
- AppSession.Restore: a stored user that is valid JSON but not a user object or null is not
  modelled; `Parsed` holds a user, null or a syntax error.
- React rendering, styles, the `Modal` component, and state batching between the awaits. The
  `loading` flags are set as the handlers set them, but nothing renders in between.
- The `message` state of the survey is never set to anything but an empty string, so its
  "thank you" view is not modelled.
- The login and customer forms, the operator tabs and page, the profile page and the header: they
  are views over the endpoints modelled here.
