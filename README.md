# CaseBuddy core, modelled in Dafny

CaseBuddy is a case-management tool for legal work. This project models its core in
Dafny and proves properties of the model. The core has three parts:

- **Session authentication** (`server/auth.ts`, `server/auth-routes.ts`):
  - an `AuthService` over a users table and a sessions table, with session creation,
    lookup with lazy expiry, deletion, clean-up, registration and login;
  - the session cookie;
  - the two middlewares `authenticateUser` and `optionalAuth`;
  - the registration password rules;
  - what the register, login, logout, me and status endpoints answer and do to the store.
- **The browser's case store** (`public/script.js`):
  - a list of cases, each with documents, evidence, timeline events and FOIA requests;
  - the functions that add to them, and the form handlers that guard those functions;
  - the search across all of it.
- **The text parsers of the AI services** (`server/services/*.ts`). Each turns the
  language model's answer into a structured result: FOIA request optimisation and
  templates, legal research queries and summaries, timeline analysis, evidence
  classification, document analysis and image analysis.

## Layout

| file | module | models |
|---|---|---|
| `wrappers.dfy` | `Wrappers` | `Option` |
| `seqs.dfy` | `Seqs` | `slice`, prefixes, `filter`, `map`, and "for each, push" (`FlatMap`), with their lemmas |
| `text.dfy` | `Text` | JavaScript's `trim`, `split`, `join`, `toLowerCase`, `includes`, `startsWith` and `||` on strings |
| `auth.dfy` | `Auth` | `server/auth.ts`: the decisions as functions, plus the class `AuthService` over two maps |
| `auth_routes.dfy` | `AuthRoutes` | `server/auth-routes.ts`: password rules, responses, handlers over an `AuthService` |
| `case_data.dfy` | `Cases` | cases and their items, `getCaseById` as a search for the first index, and what each add does |
| `case_search.dfy` | `CaseSearch` | the search as a function over the cases, with its lemmas |
| `case_store.dfy` | `LocalCases` | the class `CaseStore` (its cases and the selected case id), the adds, the forms, the search loop |
| `foia_optimization.dfy`, `legal_research.dfy`, `timeline_analysis.dfy`, `evidence_classification.dfy`, `document_analysis.dfy`, `image_analysis.dfy` | one module each | the service of the same name |

Things the code gets from outside are parameters of the model:

- **Hashing.** bcrypt is a `Hasher`, a pair of given functions for `hash` and `compare`.
  `Sound(h)` says that `compare` accepts a password against its own hash.
- **Randomness.** The 32 random bytes of a session id are given.
- **The database.** The id it assigns to a new user is given.
- **The clock.** The current time is given, in milliseconds.
- **Store failures.** Whether the store throws is a boolean, `storeFails`.
- **Browser ids.** The ids that `uuid()` makes are given.
- **The language model.** Each service takes a function from the prompt's inputs to the
  model's answer.

`limit 1` over a username-or-email match picks some matching row. The model picks it
non-deterministically, because the database's order is not known.

The documented session rule says a session at its expiry instant is already expired.
The code compares `now > expiresAt`, so at the instant itself the session still resolves.
The model follows the code. `Auth.LookupSession` and `Auth.SessionLifetime` state this
boundary, and `cleanupExpiredSessions` (`expires_at < NOW()`) uses the same one.

## Model

| member | source | states |
|---|---|---|
| Auth.AddDays | server/auth.ts:30-31 | `setDate(getDate() + days)` taken as whole days of 86400000 ms each (no daylight-saving shift): the time moves by exactly days × 86400000 ms, never back for a non-negative count |
| Auth.HexEncode | server/auth.ts:24-26 | a byte string becomes twice as many lower-case hex digits |
| Auth.HexRoundTrip | server/auth.ts:24-26 | decoding the hex of any bytes gives the bytes back |
| Auth.HexEncodeInjective | server/auth.ts:24-26 | different random bytes give different session ids |
| Auth.SessionIdFrom | server/auth.ts:24-26 | a session id is 64 hex digits, made from 32 bytes |
| Auth.LookupSession | server/auth.ts:42-64 | a lookup finds a live session exactly when the id is known, its user exists and now ≤ expiresAt, and then gives that user; it finds an expired one exactly when now > expiresAt |
| Auth.Unexpired | server/auth.ts:70-72 | the clean-up keeps exactly the sessions with expiresAt ≥ now, unchanged |
| Auth.CleanupAgreesWithLookup | server/auth.ts:57-72 | after a clean-up at now, no lookup at now finds an expired session; a session that would be found expired is gone; every other lookup answers as before |
| Auth.DeletedSessionStaysGone | server/auth.ts:57-68 | once a session is deleted, every later lookup of its id finds nothing |
| Auth.SessionLifetime | server/auth.ts:28-63 | in the whole-day model of `AddDays`, a session made at t for an existing user resolves to that user from t up to and including t + 30 × 86400000 ms, and is expired at every later time |
| Auth.CheckLogin | server/auth.ts:135-149 | checks run in order: no row gives "Invalid credentials", then a deactivated account, then a wrong password gives "Invalid credentials"; otherwise the row found is accepted |
| Auth.DeactivatedIgnoresPassword | server/auth.ts:141-143 | a deactivated account gets the same refusal whatever password is given |
| Auth.UnknownUserLooksLikeWrongPassword | server/auth.ts:135-149 | an unknown identifier and a wrong password get the same error and message |
| Auth.RegisteredPasswordAccepted | server/auth.ts:16-22 | with a sound hasher, an active user who gives the password their stored hash was made from is accepted |
| Auth.CheckRegistration | server/auth.ts:89-94 | a clash is refused exactly when a row was found: "Username already exists" when its username is the request's, "Email already exists" otherwise |
| Auth.EmailClashReportsEmail | server/auth.ts:89-94 | a clash on the email with another username reports the email |
| Auth.NewUser | server/auth.ts:96-112 | the inserted row holds the request's fields and the hash in place of the password; it is active, on trial, with the trial ending 14 days from now, never logged in |
| Auth.RegisteredUserCanLogIn | server/auth.ts:96-149 | with a sound hasher, the password a user registers with passes the login checks |
| Auth.SessionCookie | server/auth.ts:167-174 | the cookie is "session_id" with the session id, http-only, same-site strict, secure only in production, with a max-age of 30 days |
| Auth.CookieLastsAsLongAsSession | server/auth.ts:167-173 | in the whole-day model of `AddDays`, the cookie's max-age ends at the same time as the session it carries |
| Auth.RequireAuth | server/auth.ts:182-205 | no or an empty cookie gives 401 "Authentication required"; a store failure gives 500; a session that does not resolve clears the cookie and gives 401 "Invalid or expired session"; a live one proceeds with its user |
| Auth.OptionalAuth | server/auth.ts:208-224 | always proceeds, with the user attached exactly when a cookie resolves to a live session |
| Auth.MiddlewaresAgree | server/auth.ts:182-224 | the optional middleware attaches a user exactly when the required one lets the request through, and then the same user |
| Auth.AuthService.CreateSession | server/auth.ts:28-40 | adds exactly one session, for the user, expiring 30 days from now, under the id made from the bytes; a taken id stores nothing and gives no id |
| Auth.AuthService.GetSessionUser | server/auth.ts:42-64 | answers the lookup's user for a live session and nothing otherwise; deletes the session exactly when it has expired; users unchanged |
| Auth.AuthService.DeleteSession | server/auth.ts:66-68 | removes that id only; an unknown id changes nothing |
| Auth.AuthService.CleanupExpiredSessions | server/auth.ts:70-72 | the sessions become exactly the unexpired ones; users unchanged |
| Auth.AuthService.Register | server/auth.ts:74-124 | a taken username or email is refused with that error and no change; otherwise the new row is stored under the assigned id and a session is created for it, returning the user and session id; a taken user id or session id ends in "Registration failed", the user row staying in the second case; uniqueness of usernames and emails is kept |
| Auth.AuthService.Login | server/auth.ts:126-165 | the login checks decide on the row matching the identifier; a refusal changes nothing; success sets the last login time, then adds a session for the user and returns the row as read; a taken session id ends in "Login failed" after the login time was set |
| Auth.AuthService.AuthenticateUser | server/auth.ts:182-205 | answers as the required middleware decides on the session lookup, deleting the session when it has expired |
| Auth.AuthService.OptionalAuthenticate | server/auth.ts:208-224 | always proceeds, as the optional middleware decides on the lookup, deleting an expired session |
| AuthRoutes.FirstLine | server/auth-routes.ts:13 | the part of the password a look-ahead `.*` can reach: the longest prefix without a line terminator |
| AuthRoutes.PasswordIssues | server/auth-routes.ts:11-13 | at most two issues, all on the password; none exactly when it has at least 8 characters and a lower-case letter, an upper-case letter and a digit before its first line break |
| AuthRoutes.RegistrationIssues | server/auth-routes.ts:10-18 | no issue exactly when the password passes and equals its confirmation; a mismatch exactly when the last issue is "Passwords don't match" on confirmPassword |
| AuthRoutes.DigitAfterLineBreakDoesNotCount | server/auth-routes.ts:13 | "abcdefgH", a line feed, then "1" is refused by the character rule alone |
| AuthRoutes.ToRegisterRequest | server/auth-routes.ts:32-33 | the service gets the body's fields without confirmPassword |
| AuthRoutes.OnlyPasswordIsDropped | server/auth-routes.ts:43 | the public user is the row less its password: putting the password back gives the row |
| AuthRoutes.PasswordNeverShows | server/auth-routes.ts:125 | rows that differ only in the password look the same to a client |
| AuthRoutes.RegisterResponse | server/auth-routes.ts:35-48 | a service error is 400 with its message and no cookie; success is 201 with the session cookie and the user without password |
| AuthRoutes.LoginResponse | server/auth-routes.ts:70-83 | a service error is 401 with its message; success is 200 with the session cookie and the user without password |
| AuthRoutes.CookieSetOnlyOnSuccess | server/auth-routes.ts:35-83 | register and login set a cookie exactly when the service succeeded, and it carries the new session id |
| AuthRoutes.LogoutResponse | server/auth-routes.ts:91-106 | logout is 200 and clears the cookie, unless a cookie is present and the store fails, which is 500 |
| AuthRoutes.MeResponse | server/auth-routes.ts:109-132 | no cookie is 401 "Not authenticated"; a store failure is 500; an unresolved session clears the cookie and is 401; a live one gives its user without password |
| AuthRoutes.StatusResponse | server/auth-routes.ts:135-153 | always 200, the cookie untouched; authenticated exactly when a cookie resolves to a live session, and then `user` is its id, username and email; no `user` key exactly when there is no cookie or the store fails; an unauthenticated answer with a `user` key has `user: null` |
| AuthRoutes.EndpointsAgreeWithMiddleware | server/auth-routes.ts:109-153 | `/me` is 200 exactly when `authenticateUser` proceeds and `/status` says authenticated, with the same user, and clears the cookie exactly when the middleware does |
| AuthRoutes.RegisterHandler | server/auth-routes.ts:21-53 | a body with issues is 400 "Validation failed" with those issues and changes nothing; otherwise the answer is the service result's response, and on success the stored session belongs to the stored user, who holds the hash of the body's password |
| AuthRoutes.LoginHandler | server/auth-routes.ts:56-88 | an invalid body is 400 and changes nothing; otherwise the answer is the login result's response, and on success the user matches the identifier, is active and passes the password check |
| AuthRoutes.LogoutHandler | server/auth-routes.ts:91-106 | deletes the cookie's session when there is a cookie and the store works, and answers as the logout response says |
| AuthRoutes.MeHandler | server/auth-routes.ts:109-132 | answers the `/me` response on the session lookup, deleting an expired session |
| AuthRoutes.StatusHandler | server/auth-routes.ts:135-153 | answers 200 with the `/status` response on the session lookup, deleting an expired session |
| Cases.FindCase | public/script.js:84-86 | the index of the first case with the id, or nothing exactly when no case has it |
| Cases.FindCaseSameIds | public/script.js:84-86 | lists of cases with the same ids in the same order find every id at the same place |
| Cases.FindCaseAfterAppend | public/script.js:312-325 | after a case is appended, every id found before is found at the same place, and the new case's id is found |
| Cases.NewCase | public/script.js:312-321 | a new case has the given id, title and description and four empty lists |
| Cases.NewFoiaRequest | public/script.js:418-427 | a new FOIA request is always "Pending" |
| Cases.WithDocument | public/script.js:333-346 | an unknown case id changes nothing; otherwise the first case with the id gets the document at the end of its documents, the list created if missing, and nothing else changes |
| Cases.WithEvidence | public/script.js:372-386 | the same for evidence |
| Cases.WithEvent | public/script.js:395-410 | the same for timeline events |
| Cases.WithFoiaRequest | public/script.js:418-433 | the same for FOIA requests |
| Cases.AddsKeepLookups | public/script.js:333-433 | no add changes where any id is found |
| Cases.DocumentIsLastOfItsCase | public/script.js:343-344 | after an add, the case found by the id lists its old documents followed by the new one |
| CaseSearch.Excerpt | public/script.js:550 | empty text gives ""; otherwise the first 100 characters (or all of them), always followed by "..." |
| CaseSearch.Search | public/script.js:517-521 | the results are cleared exactly when the term is empty |
| CaseSearch.AllResultsExtend | public/script.js:526-610 | walking one more case appends exactly that case's results |
| CaseSearch.SearchFollowsCaseOrder | public/script.js:526-610 | the search over two lists of cases is the first list's results followed by the second's |
| CaseSearch.SearchFindsExactly | public/script.js:526-610 | a result appears exactly when it is a result of one of the cases |
| CaseSearch.CaseResultsExactly | public/script.js:528-609 | a case's results are exactly: the case if its title or description contains the lowered term; each document whose name or content does; each evidence item whose name does; each event whose title or description does, or whose date contains the term as typed; each FOIA request whose subject or description does; each labelled with the case's id |
| CaseSearch.CaseResultsSelectTheirCase | public/script.js:640-645 | clicking any result of a case selects that case; only the case's own result lacks a case id |
| CaseSearch.ClickSelectsExistingCase | public/script.js:640-645 | clicking any search result selects a case that exists |
| CaseSearch.AtMostOneResultPerItem | public/script.js:526-610 | a case gives at most one result for itself and one for each of its items |
| CaseSearch.SearchAfterAddingCase | public/script.js:526-610 | adding a case leaves the earlier results alone and appends the new case's |
| LocalCases.CollectDocuments | public/script.js:541-556 | the loop over a case's documents pushes exactly the document results, in list order |
| LocalCases.CollectEvidence | public/script.js:559-571 | the same for evidence |
| LocalCases.CollectEvents | public/script.js:574-591 | the same for timeline events |
| LocalCases.CollectFoiaRequests | public/script.js:594-609 | the same for FOIA requests |
| LocalCases.CollectCaseResults | public/script.js:526-609 | one case's part of the loop gives exactly that case's results |
| LocalCases.CaseStore.constructor | public/script.js:21-30 | the page starts from the stored cases, with no case selected |
| LocalCases.CaseStore.GetCaseById | public/script.js:84-86 | the first case with the id, or nothing exactly when no case has it |
| LocalCases.CaseStore.AddCase | public/script.js:312-325 | the cases become the old ones followed by exactly the new case |
| LocalCases.CaseStore.AddDocument | public/script.js:333-346 | the cases become `WithDocument` of the old ones; the selection is unchanged |
| LocalCases.CaseStore.AddEvidence | public/script.js:372-386 | the cases become `WithEvidence` of the old ones |
| LocalCases.CaseStore.AddTimelineEvent | public/script.js:395-410 | the cases become `WithEvent` of the old ones |
| LocalCases.CaseStore.AddFoiaRequest | public/script.js:418-433 | the cases become `WithFoiaRequest` of the old ones, with a pending request |
| LocalCases.CaseStore.Search | public/script.js:517-613 | the nested loops produce exactly the search's outcome |
| LocalCases.CaseStore.SearchInput | public/script.js:721-723 | the search box searches for the trimmed input, which clears the results exactly when the input is blank |
| LocalCases.CaseStore.SubmitNewCase | public/script.js:652-661 | a case with the trimmed title and description is added exactly when the trimmed title is not empty |
| LocalCases.CaseStore.SubmitDocument | public/script.js:663-677 | the document is added to the selected case exactly when a case is selected, the trimmed name is not empty and a file was picked |
| LocalCases.CaseStore.SubmitEvidence | public/script.js:679-693 | the same for evidence, with the file read as a data URL |
| LocalCases.CaseStore.SubmitTimelineEvent | public/script.js:695-707 | the event is added exactly when a case is selected and the trimmed title is not empty; the date is taken as entered |
| LocalCases.CaseStore.SubmitFoiaRequest | public/script.js:709-719 | the request is added exactly when a case is selected and the trimmed subject is not empty |
| LocalCases.CaseStore.SelectCaseAsWritten | public/script.js:113-131 | shows the case found by the id, and records nothing |
| LocalCases.CaseStore.SelectCase | public/script.js:113-131 | shows the case found by the id and makes it the selection; an unknown id clears the selection |
| LocalCases.DocumentAfterSelectAsWritten | public/script.js:663-677 | as written, selecting an existing case and submitting a named document adds nothing |
| LocalCases.DocumentAfterSelect | public/script.js:663-677 | with the intended selection, the same steps add the document to that case |
| Text.Trim | server/services/legal-research.ts:62 | the trimmed text is no longer, and starts and ends with a non-space |
| Text.TrimIsMiddle | server/services/legal-research.ts:62 | the trimmed text is the stretch of the text right after its leading white space, and only white space comes before and after that stretch |
| Text.TrimAfterTrimStart | server/services/legal-research.ts:63 | trimming the result of `trimStart` is trimming the original |
| Text.TrimEmptyIffBlank | server/services/legal-research.ts:62 | the trimmed text is empty exactly when the text is all white space |
| Text.SplitJoin | server/services/timeline-analysis.ts:26 | joining pieces that hold no separator and splitting again gives the pieces back |
| Text.NonBlankLines | server/services/foia-optimization.ts:72 | every kept line is non-empty, has no line feed and is not blank after trimming |
| Text.NonBlankLinesMember | server/services/foia-optimization.ts:72 | a line is kept exactly when it is a line of the text and is not blank |
| Text.JoinLines | server/services/legal-research.ts:73 | non-empty single lines joined with spaces give one line, empty exactly when there are none, starting with the first |
| Text.JoinedRange | server/services/legal-research.ts:73 | lines a up to b of non-empty single lines, joined with spaces, give one line, empty exactly when there is no line a, and starting with line a |
| Text.JoinLength | server/services/legal-research.ts:73 | a join is as long as its parts together plus one separator between each two |
| Text.JoinPartAt | server/services/legal-research.ts:73 | in a join, part i sits at the offset of the parts before it plus their separators, followed by the separator unless it is the last |
| Text.JoinLaidOut | server/services/legal-research.ts:73 | a join of non-empty parts holds exactly the parts in order, one separator between each two, and nothing else |
| FoiaOptimization.NormaliseRequest | server/services/foia-optimization.ts:13-17 | an object gives its subject and description, a missing one as ""; another value gives its string as subject and "" as description; null gives nothing |
| FoiaOptimization.ParseOptimizationResponse | server/services/foia-optimization.ts:69-81 | the suggested details are exactly the non-blank lines 5 to 7, the agencies lines 8 and 9, and the tips lines 10 to 14 — as many of them as the answer has |
| FoiaOptimization.OptimizationListsAreLinesFiveToFourteen | server/services/foia-optimization.ts:77-79 | details, agencies and tips together are exactly the non-blank lines 5 to 14, in order |
| FoiaOptimization.OptimizationTextFields | server/services/foia-optimization.ts:72-76 | subject and description are single lines; the subject is the first non-blank line, or the default when there is none; the description starts with the second non-blank line, or is the default when there is none |
| FoiaOptimization.OptimizationDescriptionLayout | server/services/foia-optimization.ts:76 | with a second non-blank line, the description is non-blank lines 1 to 4 in order, one space between each two, and nothing else |
| FoiaOptimization.OptimizeFoiaRequest | server/services/foia-optimization.ts:13-44 | no result exactly for null; otherwise the parse of the model's answer on the normalised request |
| FoiaOptimization.ParseTemplateResponse | server/services/foia-optimization.ts:83-96 | the category is always "General"; the attachments are exactly the non-blank lines 6 and 7, the agencies lines 8 and 9, and the tips lines 10 to 14 — as many of them as the answer has |
| FoiaOptimization.TemplateListsAreLinesSixToFourteen | server/services/foia-optimization.ts:92-94 | attachments, agencies and tips together are exactly the non-blank lines 6 to 14, in order |
| FoiaOptimization.TemplateTextFields | server/services/foia-optimization.ts:86-91 | the subject and body templates are single lines, the defaults only when the lines are missing, otherwise starting with lines 0 and 1 |
| FoiaOptimization.TemplateBodyLayout | server/services/foia-optimization.ts:91 | with a second non-blank line, the body template is non-blank lines 1 to 5 in order, one space between each two, and nothing else |
| FoiaOptimization.GenerateTemplate | server/services/foia-optimization.ts:46-67 | a generated template is always "General", with the list bounds |
| LegalResearch.StripNumbering | server/services/legal-research.ts:63 | the result is a suffix of the line: the line after its leading digits, dot and white space when it starts that way, else the line itself |
| LegalResearch.StripNumberingRemovesNumber | server/services/legal-research.ts:63 | digits, a dot and white space in front of a text are removed exactly |
| LegalResearch.CleanQuery | server/services/legal-research.ts:63 | a query neither starts nor ends with white space |
| LegalResearch.NumberedLineQuery | server/services/legal-research.ts:63 | a line of digits, a dot and a text gives the text trimmed, whatever white space follows the dot |
| LegalResearch.UnnumberedLineQuery | server/services/legal-research.ts:63 | a line that does not start with a digit gives the line trimmed |
| LegalResearch.QueryLines | server/services/legal-research.ts:61-62 | every kept line is non-blank and does not start with '#' |
| LegalResearch.QueryLinesMember | server/services/legal-research.ts:62 | a line is kept exactly when it is a line of the answer, not blank, and does not start with '#' as it stands |
| LegalResearch.IndentedHeadingIsKept | server/services/legal-research.ts:62 | a '#' heading indented by white space is kept |
| LegalResearch.NumberOnlyLineGivesEmptyQuery | server/services/legal-research.ts:62-63 | a line of only a number and a dot passes the filter and gives an empty query |
| LegalResearch.ParseQueriesResponse | server/services/legal-research.ts:58-65 | min(5, number of kept lines) queries, the i-th the cleaned i-th kept line |
| LegalResearch.QueriesAreTrimmed | server/services/legal-research.ts:63 | trimming a query changes nothing |
| LegalResearch.GenerateResearchQueries | server/services/legal-research.ts:12-31 | at most 5 queries |
| LegalResearch.ParseSummaryResponse | server/services/legal-research.ts:67-79 | the precedents are exactly the non-blank lines 3 to 5, the statutes lines 6 to 8, and the principles lines 9 to 11 — as many of them as the answer has |
| LegalResearch.SummaryListsAreLinesThreeToEleven | server/services/legal-research.ts:74-76 | precedents, statutes and principles together are exactly the non-blank lines 3 to 11, in order |
| LegalResearch.SummaryTextFields | server/services/legal-research.ts:70-77 | summary and application are single lines; the summary is empty exactly when there are no non-blank lines and starts with the first; the application is empty exactly when there are at most 12 |
| LegalResearch.SummaryTextLayout | server/services/legal-research.ts:70-77 | the summary is non-blank lines 0 to 2 and the application lines 12 to 14, each in order with one space between each two and nothing else, whenever the answer has such lines |
| LegalResearch.SummarizeResearchResults | server/services/legal-research.ts:33-56 | a summary has the list bounds, and its summary and application are single lines |
| TimelineAnalysis.FormatEvent | server/services/timeline-analysis.ts:26 | an event's line is its date, ": ", its title, " - " and its description (or "No description" when that is missing or empty), in that order and nothing else |
| TimelineAnalysis.EventLines | server/services/timeline-analysis.ts:26 | one line per event, in order, line i being the rendering of event i |
| TimelineAnalysis.FormatEventSingleLine | server/services/timeline-analysis.ts:26 | an event without line feeds renders as one line |
| TimelineAnalysis.FormatEventsSplitsBack | server/services/timeline-analysis.ts:26 | splitting the rendered timeline gives back one line per event, in order |
| TimelineAnalysis.ParseAnalysisResponse | server/services/timeline-analysis.ts:70-79 | the insights are exactly the answer's lines 0 to 2 (at least one) and the suggestions lines 3 to 5, as many as the answer has; no gaps and no critical periods |
| TimelineAnalysis.AnalysisIsFirstSixLines | server/services/timeline-analysis.ts:74-77 | insights then suggestions are exactly the first six lines of the answer, blank ones included |
| TimelineAnalysis.SingleLineAnswer | server/services/timeline-analysis.ts:74-77 | a one-line answer is one insight and nothing else |
| TimelineAnalysis.AnalyzeTimeline | server/services/timeline-analysis.ts:12-35 | the analysis is the empty one exactly when there are no events |
| TimelineAnalysis.AnalyzeCaseTimeline | server/services/timeline-analysis.ts:37-45 | a case's analysis is never the empty one, and has an insight |
| TimelineAnalysis.EveryCaseGetsTheSameAnalysis | server/services/timeline-analysis.ts:37-45 | the case id plays no part: every case gets the analysis of the same three events |
| EvidenceClassification.Tags | server/services/evidence-classification.ts:55 | between 1 and 5 tags, the i-th the trimmed i-th comma piece |
| EvidenceClassification.TagsAreTrimmedPieces | server/services/evidence-classification.ts:55 | no tag holds a comma, or starts or ends with white space |
| EvidenceClassification.AnswerWithoutCommaIsOneTag | server/services/evidence-classification.ts:55 | an answer without a comma is one tag, the answer trimmed |
| EvidenceClassification.ParseClassificationResponse | server/services/evidence-classification.ts:49-59 | type "document", score 5 and public, whatever the answer; the tags; the description is the answer's first 200 characters |
| EvidenceClassification.ShortAnswerIsDescription | server/services/evidence-classification.ts:57 | an answer of at most 200 characters is the whole description |
| EvidenceClassification.ClassifyEvidence | server/services/evidence-classification.ts:12-20 | every classification is a public "document" of score 5 with 1 to 5 tags |
| DocumentAnalysis.ExtractText | server/services/document-analysis.ts:25-32 | the text analysed is the content itself, whatever the type |
| DocumentAnalysis.PromptText | server/services/document-analysis.ts:49 | the prompt holds the text's first 25000 characters |
| DocumentAnalysis.ParseAnalysisResponse | server/services/document-analysis.ts:58-73 | the raw analysis is the answer, the summary its first 500 characters, every list empty |
| DocumentAnalysis.AnalyzeDocument | server/services/document-analysis.ts:12-23 | the raw analysis is the model's answer on the content's first 25000 characters, whatever the type; the summary is at most 500 characters |
| DocumentAnalysis.AnalysisSeesOnlyPromptText | server/services/document-analysis.ts:12-49 | documents that agree on their first 25000 characters get the same analysis, whatever their ids and types |
| ImageAnalysis.StripDataUrlPrefix | server/services/image-analysis.ts:29 | the result is a suffix of the input |
| ImageAnalysis.StripsDataUrlPrefix | server/services/image-analysis.ts:29 | "data:image/", a word, ";base64," in front of the data are removed exactly |
| ImageAnalysis.StripRemovesOnlyDataUrlPrefix | server/services/image-analysis.ts:29 | when anything is removed, it is exactly such a header |
| ImageAnalysis.ParseImageAnalysisResponse | server/services/image-analysis.ts:41-52 | the description is the first 100 characters, the relevance empty exactly for answers of at most 100; the lists empty and the location "unknown" |
| ImageAnalysis.ImageTextIsFirst200 | server/services/image-analysis.ts:45-50 | description then relevance are exactly the answer's first 200 characters |
| ImageAnalysis.AnalyzeImage | server/services/image-analysis.ts:12-39 | the description is at most 100 characters and the relevance at most 100 |
| ImageAnalysis.HeaderNeverReachesModel | server/services/image-analysis.ts:29 | an image given with a data-URL header is analysed as its bare data |

## Left out

- bcrypt's algorithm and cost factor: hashing is a given function pair.
- Randomness, the clock and the database's id assignment: these are parameters.
- The database itself: drizzle queries are operations on two maps.
- Concurrent requests: each operation is one atomic step.
- Express transport, `details` formatting by zod, and logging: not modelled.
- Store errors other than a taken id, in register and login: not modelled. Only a taken
  id makes an insert fail, and that gives "Registration failed" or "Login failed".
- The 500 "Internal server error" branches of the register and login routes: not modelled.
  The service catches every error itself, so these branches need an error outside it.
- The rest of `insertUserSchema` and `loginSchema` (`server/schema.ts` and the shared
  schema): they are not part of this model. Only the password and confirmation rules of
  the registration schema are modelled, and a login body's validity is an input.
- New users are assumed active. The column default for `isActive` is not part of this model.
- `createdAt`-style timestamps set by the database: not modelled.
- In `public/script.js`:
  - the DOM rendering, `localStorage` persistence, the backend upload `fetch` in
    `addDocument`, `FileReader`, and `uuid()`;
  - a stored case with missing or non-string text fields: every text field is a string
    here, and a missing list is `None`.
- `toLowerCase` is modelled on ASCII letters only, and a string is a sequence of
  characters, not of UTF-16 code units. Lengths used by `substring` can differ for text
  outside the basic plane.
- FOIA argument fields that are not strings (a number, say): the model treats the
  fields of an object argument as strings or missing.
- The prompts sent to the model, the model names and token limits, and `storeAnalysis`/
  `storeClassification` (console logging).
- The `.js` variants of the services: they are not part of this model.
- Auth.AddDays: days are whole 86400000 ms steps. The source's `setDate` works on the
  local calendar, so across a daylight-saving change the stored expiry is an hour off
  that. The cookie's `maxAge` is a fixed 30 × 86400000 ms, so it can then end an hour
  before or after the session. `Auth.SessionLifetime` and
  `Auth.CookieLastsAsLongAsSession` hold in this whole-day model only.

## Findings

| source | as written | input that shows it | evidently intended | confidence | as-written member | corrected member |
|---|---|---|---|---|---|---|
| public/script.js:113-131 | `selectCase` shows the case but never writes `caseInfoEl.dataset.selectedCaseId`, and nothing else does; the four item forms read it (lines 665, 681, 697, 711) and add only when it is set | load the page with a stored case, click it, submit the document form with a name and a file: the document is not added | selecting a case records its id, so the item forms add to the case shown | high; not executed (the page's HTML is not part of this model) | LocalCases.DocumentAfterSelectAsWritten | LocalCases.DocumentAfterSelect |

The store's `SelectCase` is the corrected version. `SelectCaseAsWritten` is kept only
to show the scenario as the code has it.
