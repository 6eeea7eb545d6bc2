# Lead management: a Dafny model

This project models the core of a small lead-management application. Salespeople register and log in. They record leads: a name, an optional e-mail, a phone number, a source and a pipeline status. They then list, search, filter, page through, update, delete and count their own leads. The model covers:

- **Lead entity** (`lead_entity.dfy`): the lead record, the five statuses, the three sources, and the schema's default status.
- **Base repository** (`base_repo.dfy`): the generic repository as the lead collection uses it. It is a class `Repository` whose `leads` map is changed in place by `Create`, `Update` and `Delete`.
- **Lead repository** (`lead_repo.dfy`): the two queries of the lead repository.
  - `findAllLeads` builds a filter step by step: the owner, the `q` search, `status`, `source` and the date range. It then returns one page and the total count.
  - `getStats` builds a `$match` and counts the matching leads by status and by source.
- **Lead service** (`lead_service.dfy`): the lead service, which acts for one user.
  - Create checks the required fields.
  - Listing parses `sort`, caps `limit` and computes the page count.
  - Read, update and delete check ownership first. Statistics count the user's leads only when the query names no other owner (see Findings).
- **Auth service** (`auth_service.dfy`): registration, login and the refresh-token stub.
- **Backend lead schema** (`lead_validation.dfy`): the backend lead schema and the `validateLead` middleware. It reports every failing field check, and a body with any issue gets a 400 answer.
- **Frontend form schemas**: the login and registration schemas (`auth_validation.dfy`) and the lead form schema (`lead_form_validation.dfy`).
- **Regular expressions** (`regex.dfy`, `patterns.dfy`): an anchored backtracking matcher for the shape of the phone and e-mail regular expressions, with both patterns written out.
- **Pagination bar** (`pagination.dfy`): the page buttons it lists and what its controls ask for.

Conventions:

- **Database state.** The database is a map from id to document. Queries read it through a sequence `docs` that lists every stored document once, in the order the query's sort puts them. `Repository.Enumerates(docs)` ties the sequence to the map.
- **Outside inputs become parameters.**
  - Fresh ids and the current time are method parameters.
  - Date parsing (`new Date(text)`) is the parameter `date`.
  - zod's e-mail check is the parameter `isEmail`.
  - Password hashing and comparison are the two function fields of a `PasswordHasher`.
- **Tokens.** A signed token is modelled as the user id it is issued for.
- **Query parameters.** Absent text parameters are written as `""`, because the code tests them by truthiness.

Where the code differs from what it evidently intends, or from what a reader might expect, the model follows the code:

- **Stats filter.** The statistics filter is `{ createdBy: userId, ...query }`, so a `createdBy` query parameter replaces the owner (see Findings).
- **Page size.** The page size is `Math.min(limit, 100)`, capped from above only. A page size of 0 returns every matching lead with a null page count, and a negative one fails past page 1 with a negative skip (see Findings).
- **E-mail in the lead schema.** The backend lead schema accepts `""` as "no e-mail". The frontend form refuses it.
- **Lead routes.** The lead routes do not install `validateLead`. The schema is modelled on its own, and `createLead` checks only its four required fields.
- **Update.** `updateLead` applies any field of the request body, `createdBy` included.
- **`totalLeads`.** The aggregation leaves out `totalLeads` when nothing matches, because `$arrayElemAt` of an empty array is missing. The `stats[0] || …` fallback is never taken, because `$facet` always yields one document.

## Model

| member | source | states |
|---|---|---|
| `LeadEntity.ParseStatus` | backend/src/entity/lead.entity.ts:3-9 | a text is accepted as a status exactly when it is one of the five status names, and is read back as that status |
| `LeadEntity.ParseSource` | backend/src/entity/lead.entity.ts:11-15 | a text is accepted as a source exactly when it is one of the three source names |
| `Patterns.DigitsOnlyPhone` | backend/src/middlewares/validation.ts:5 | a phone number of digits only matches the phone pattern exactly when it has 3 to 17 digits |
| `Patterns.PhoneNotEmpty` | frontend/src/validations/authValidation.ts:4 | the phone pattern never matches the empty string, so it already implies "Phone number is required" |
| `Patterns.EmailCharacterised` | frontend/src/validations/authValidation.ts:11 | the e-mail pattern matches exactly the strings without white space that have one `@`, not first, followed by a domain with a dot that has text on both sides |
| `Patterns.EmailNotShort` | frontend/src/validations/authValidation.ts:11 | every address the e-mail pattern accepts has at least five characters |
| `LeadValidation.NameIssues` | backend/src/middlewares/validation.ts:8-10 | the name gives no issue exactly when it is present with 2 to 100 characters; its issues are all reported at `name` |
| `LeadValidation.EmailIssues` | backend/src/middlewares/validation.ts:11-14 | the e-mail gives no issue exactly when it is absent, empty or a valid address; otherwise the one issue "Invalid email address" |
| `LeadValidation.PhoneIssues` | backend/src/middlewares/validation.ts:15-16 | the phone gives no issue exactly when it is present and matches the phone pattern; at most one issue |
| `LeadValidation.SourceIssues` | backend/src/middlewares/validation.ts:17-19 | the source gives no issue exactly when it names a source; a missing or unknown source gives the schema's one custom message |
| `LeadValidation.StatusIssues` | backend/src/middlewares/validation.ts:20-22 | the status gives no issue exactly when it is absent or names a status; otherwise the custom status message |
| `LeadValidation.NotesIssues` | backend/src/middlewares/validation.ts:23 | notes give no issue exactly when absent or at most 500 characters long |
| `LeadValidation.SchemaAcceptsExactly` | backend/src/middlewares/validation.ts:7-24 | the schema reports no issue exactly when all six field rules hold |
| `LeadValidation.IssuesNameAField` | backend/src/middlewares/validation.ts:7-24 | every issue's path is one of the six field names |
| `LeadValidation.ValidateLead` | backend/src/middlewares/validation.ts:26-41 | the request is passed on exactly when the body is well formed; otherwise the answer is 400 "Validation failed" with one entry per issue, its path joined with dots and its message |
| `LeadValidation.ErrorPathsAreFieldNames` | backend/src/middlewares/validation.ts:31-34 | every error entry of a rejected body names a bare field |
| `AuthValidation.LoginAcceptsExactly` | frontend/src/validations/authValidation.ts:7-19 | the login form is accepted exactly when the e-mail matches the pattern and the password has at least 6 characters |
| `AuthValidation.EmptyLoginReportsEveryCheck` | frontend/src/validations/authValidation.ts:8-18 | an empty login form reports all four failing checks, in schema order, because every check of a field runs |
| `AuthValidation.RegisterAcceptsExactly` | frontend/src/validations/authValidation.ts:22-55 | the registration form is accepted exactly when the name has 2 to 100 characters, e-mail and phone match, the password has 8 characters with an upper-case letter, a lower-case letter and a digit, and the confirmation equals it |
| `AuthValidation.MismatchReportedAtConfirmation` | frontend/src/validations/authValidation.ts:52-55 | differing passwords always end the issue list with "Passwords must match" at path `confirmPassword` |
| `LeadFormValidation.EnumIssues` | frontend/src/validations/leadValidation.ts:24-26 | an enum field gives no issue exactly when its value is among the listed names, otherwise one issue with zod's built-in message |
| `LeadFormValidation.FormSourcesAreSources` | frontend/src/validations/leadValidation.ts:24 | the form's source names are exactly the names of the entity's sources |
| `LeadFormValidation.FormStatusesAreStatuses` | frontend/src/validations/leadValidation.ts:26 | the form's status names are exactly the names of the entity's statuses |
| `LeadFormValidation.LeadFormAcceptsExactly` | frontend/src/validations/leadValidation.ts:6-31 | the lead form is accepted exactly when name, e-mail, phone, source, status and notes each meet their rule |
| `LeadFormValidation.EmptyEmailOnlyBackendAccepts` | frontend/src/validations/leadValidation.ts:12-17 | an empty e-mail gets both e-mail messages from the form but no issue from the backend schema |
| `Pagination.GetPageNumbers` | frontend/src/components/Pagination.tsx:11-25 | the list built by pushing entries one by one equals the case table: every page up to seven pages, otherwise seven entries around the current page |
| `Pagination.SevenEntriesWhenLong` | frontend/src/components/Pagination.tsx:15-23 | with more than seven pages the list has seven entries, first page 1 and last the final page |
| `Pagination.NumbersIncrease` | frontend/src/components/Pagination.tsx:13-23 | the listed page numbers strictly increase from left to right |
| `Pagination.NumbersInRange` | frontend/src/components/Pagination.tsx:13-23 | when the current page exists, every listed number is between 1 and the page count |
| `Pagination.CurrentListedOnce` | frontend/src/components/Pagination.tsx:13-23 | the current page appears in the list, and exactly once |
| `Pagination.Clicked` | frontend/src/components/Pagination.tsx:58-89 | Previous is disabled exactly on page 1, Next exactly on the last page, a page button exactly when it is the `...` filler |
| `Pagination.ClicksStayInRange` | frontend/src/components/Pagination.tsx:27-89 | on a drawn bar every enabled control asks for an existing page, and Previous and Next are never both disabled |
| `BaseRepo.EmptyPatchTouchesOnlyTime` | backend/src/repositories/base.repo.ts:19-21 | an update with no fields changes nothing but `updatedAt` |
| `BaseRepo.MergeIdempotent` | backend/src/repositories/base.repo.ts:19-21 | applying the same update twice gives the same document as applying it once |
| `BaseRepo.Repository.Create` | backend/src/repositories/base.repo.ts:7-9 | the new document is stored under its fresh id with the default status when none is given and both timestamps at now; nothing else changes |
| `BaseRepo.Repository.FindById` | backend/src/repositories/base.repo.ts:15-17 | returns the stored document with that id, or nothing when there is none |
| `BaseRepo.Repository.Update` | backend/src/repositories/base.repo.ts:19-21 | a stored document is replaced by its patched version, which is returned; an unknown id changes nothing and returns nothing |
| `BaseRepo.Repository.Delete` | backend/src/repositories/base.repo.ts:23-26 | the document is removed and the result says whether it existed; no other document changes |
| `LeadRepo.Where` | backend/src/repositories/lead.repo.ts:36-39 | the selection holds exactly the documents that satisfy the filter |
| `LeadRepo.Window` | backend/src/repositories/lead.repo.ts:37 | skip and limit give the documents from the skip position on, at most the limit's magnitude of them, with 0 meaning no limit |
| `LeadRepo.BuildListFilter` | backend/src/repositories/lead.repo.ts:17-34 | a document satisfies the built filter exactly when it meets the caller's filter on every key the options do not replace, the search, the status, the source and both date bounds |
| `LeadRepo.ListingKeepsBase` | backend/src/repositories/lead.repo.ts:17-27 | a listed document meets the caller's filter on every key other than status, source and createdAt |
| `LeadRepo.FindAllLeads` | backend/src/repositories/lead.repo.ts:12-42 | a negative skip is refused; otherwise the page is the skip/limit window of the matching documents and the total counts all of them |
| `LeadRepo.BuildStatsFilter` | backend/src/repositories/lead.repo.ts:45-60 | a document satisfies the built match exactly when it equals every remaining field and lies in the date range; the date parameters are removed when a range is given |
| `LeadRepo.ByStatus` | backend/src/repositories/lead.repo.ts:67-69 | a status appears exactly when some matched lead has it, with the number of such leads |
| `LeadRepo.BySource` | backend/src/repositories/lead.repo.ts:70-72 | a source appears exactly when some matched lead has it, with the number of such leads |
| `LeadRepo.GetStats` | backend/src/repositories/lead.repo.ts:44-99 | the result is the summary of the documents the built match selects |
| `LeadRepo.CountsAddUp` | backend/src/repositories/lead.repo.ts:62-98 | the per-status counts and the per-source counts each add up to the number of matched leads, which `totalLeads` carries whenever it is present; it is absent exactly when nothing matched |
| `LeadServices.EffectiveLimit` | backend/src/services/lead.services.ts:18 | the page size as written is the smaller of the request and 100 |
| `LeadServices.ParseSort` | backend/src/services/lead.services.ts:20-24 | no sort parameter sorts by creation time, newest first; otherwise the field is the text before the first colon, descending exactly when the next segment is `desc` |
| `LeadServices.ParseSortOfPair` | backend/src/services/lead.services.ts:21-23 | `field:order` is read back as that field, descending exactly when the order is `desc` |
| `LeadServices.TotalPages` | backend/src/services/lead.services.ts:36 | the page count is the total divided by the page size rounded up, and null for a page size of 0 |
| `LeadServices.TwentyFiveLeadsMakeThreePages` | backend/src/services/lead.services.ts:31-37 | 25 leads at 10 per page make 3 pages |
| `LeadServices.ListingIsOwners` | backend/src/services/lead.services.ts:27-29 | a listing for a user matches only that user's leads |
| `LeadServices.SkipSign` | backend/src/repositories/lead.repo.ts:14 | with the corrected page size the skip is negative exactly for pages before page 1 |
| `LeadServices.StatsFilterOf` | backend/src/services/lead.services.ts:68 | the statistics filter as written holds every query field, and the user only when the query has no `createdBy` |
| `LeadServices.StatsOwnersUnlessOverridden` | backend/src/services/lead.services.ts:67-71 | as written, without `createdBy` in the query, only the user's leads are counted |
| `LeadServices.StatsQueryOverridesOwner` | backend/src/services/lead.services.ts:68 | as written, a query `createdBy` of another user makes that user's leads count |
| `LeadServices.ScopedStatsFilterOf` | backend/src/services/lead.services.ts:68 | the corrected filter holds every query field except `createdBy`, which is always the user |
| `LeadServices.ScopedStatsAreOwners` | backend/src/services/lead.services.ts:67-71 | with the corrected filter only the user's leads are counted, whatever the query |
| `LeadServices.ZeroLimitReturnsAll` | backend/src/services/lead.services.ts:18 | as written, a page size of 0 passes the cap and a page holds every matching lead |
| `LeadServices.NegativeLimitPassesCap` | backend/src/services/lead.services.ts:18 | as written, a page size of -500 passes the cap and a page holds 500 leads |
| `LeadServices.CappedLimit` | backend/src/services/lead.services.ts:18 | the corrected page size lies in 1..100 and is the request whenever the request does |
| `LeadServices.CappedPagesAreBounded` | backend/src/services/lead.services.ts:18 | with the corrected page size no page holds more than 100 leads |
| `LeadServices.LeadService.CreateLead` | backend/src/services/lead.services.ts:8-13 | a body without name, phone, source and status is refused with "Missing required fields" and nothing is stored; otherwise the lead is stored with the body's fields, owned by the user |
| `LeadServices.LeadService.GetLead` | backend/src/services/lead.services.ts:41-50 | "Lead not found" for an unknown id, "Not authorized to view this lead" for another user's lead, the lead itself for its owner |
| `LeadServices.LeadService.UpdateLead` | backend/src/services/lead.services.ts:52-60 | the same two refusals, with nothing changed; for the owner the lead is patched and the new version returned |
| `LeadServices.LeadService.DeleteLead` | backend/src/services/lead.services.ts:62-65 | the same two refusals, with nothing changed; for the owner the lead is removed and the result is true |
| `LeadServices.LeadService.GetLeads` | backend/src/services/lead.services.ts:15-39 | the request is refused exactly when the skip `(page - 1) * min(limit, 100)` is negative; otherwise the skip/limit window of the user's matching leads, all stored and owned by the user, with their total, the page number and the page count (none for a page size of 0); a positive page size bounds the page by it and by 100 |
| `LeadServices.LeadService.GetStats` | backend/src/services/lead.services.ts:67-71 | the summary of the leads that match `{ createdBy: userId, ...query }`; every counted lead is stored, and is the user's whenever the query has no `createdBy` |
| `AuthServices.RegisteredUserCanLogIn` | backend/src/services/auth.services.ts:27-33 | a user stored with the hash of a password can log in with that password |
| `AuthServices.AuthService.FindByEmail` | backend/src/repositories/user.repo.ts:11-13 | returns the stored user with that e-mail exactly when there is one |
| `AuthServices.AuthService.Register` | backend/src/services/auth.services.ts:12-39 | a missing field gives "Please provide all fields" (400), a used e-mail "User already exists" (400), both storing nothing; otherwise the user is stored with the hashed password and gets access and refresh tokens for the new id |
| `AuthServices.AuthService.Login` | backend/src/services/auth.services.ts:41-64 | a missing field gives "Please provide email and password" (400); otherwise it succeeds exactly when the stored user with that e-mail has a matching password, issues tokens for that user's id, and fails with the same "Invalid credentials" (401) for an unknown e-mail, a missing stored password and a wrong password |
| `AuthServices.AuthService.RefreshToken` | backend/src/services/auth.services.ts:66-85 | a missing token gives "Invalid Refresh Token" (401); any other token gets the literal access token "placeholder" |

## Left out

- Network, HTTP controllers, cookies, the `tokenChecker` middleware and the timing log of `register` are not part of this model. Neither are JWT signing and expiry or the console output.
- `findAll` of the base repository is not used by the core and is not modelled.
- The database's sort is not modelled. `docs` is taken to be already in the order the parsed sort asks for, so ties and the ordering of strings are outside the model.
- `Promise.all` runs the page query and the count side by side. The model reads both from one state.
- The `q` search is modelled as a case-insensitive substring test for ASCII letters. A `q` with regular-expression metacharacters, and case folding beyond ASCII, are outside the model.
- Query values are strings. Array or object values, which the query parser can produce and which would reach the database as operators, are outside the model. So are `NaN` or fractional `page` and `limit`.
- `new Date(text)` is the abstract parameter `date`. Invalid dates are not modelled.
- Ids are compared as text. An id that is not a valid ObjectId makes the database calls throw, and that error is not modelled.
- The 500 answer of `validateLead` for a non-zod error is left out. Fields of a non-string type, and zod's union errors for them, are left out too.
- zod's built-in message texts ("Required" and the invalid-enum text) are named, not spelled out. The e-mail check of the backend schema is the abstract parameter `isEmail`.
- String lengths count Unicode scalar values, while JavaScript counts UTF-16 code units. They differ only for characters outside the Basic Multilingual Plane.
- Request bodies reach `createLead` and `updateLead` unvalidated, because the lead routes install no `validateLead`. The model types the source and status fields of a body as the entity's enums, so a body with an unknown source or status is outside it.
- LeadService.CreateLead: does not model the database error when a body's source or status is not one of the schema's enum values (`source: "web"` passes the required-field check and then fails at insert).
- LeadService.UpdateLead: does not model an update storing a status or source outside the enums, which the database accepts because `findByIdAndUpdate` runs no validators by default.
- Password hashing is deterministic in the model, with no salt. `AuthServices.Sound` states the only property the login proof needs.
- Unique e-mails are an invariant of the user map. Registration is the only writer of that map in the model.
- The pagination bar's rendering, styles and highlight classes are left out, apart from which controls are disabled and what they ask for.

## Findings

| source | as written | input that shows it | evidently intended | confidence | as-written member | corrected member |
|---|---|---|---|---|---|---|
| backend/src/services/lead.services.ts:68 | `{ createdBy: userId, ...query }` lets a `createdBy` query parameter replace the owner | `GET /api/leads/stats/summary?createdBy=<another user's id>` counts the other user's leads | statistics scoped to the caller, e.g. `{ ...query, createdBy: userId }` | high; not executed | `LeadServices.StatsQueryOverridesOwner` | `LeadServices.ScopedStatsAreOwners` |
| backend/src/services/lead.services.ts:18 | `Math.min(Number(limit), 100)` caps the page size only from above | `limit=0` is passed to the database as "no limit"; `limit=-500` returns 500 leads in one batch | a page size clamped to 1..100 | medium; not executed | `LeadServices.NegativeLimitPassesCap` | `LeadServices.CappedPagesAreBounded` |

`LeadService.GetStats` and `LeadService.GetLeads` model the code as written: they use `StatsFilterOf` and `EffectiveLimit`. The corrected definitions `ScopedStatsFilterOf` and `CappedLimit` stand beside them. The properties the code evidently intends are proved about those: `ScopedStatsAreOwners`, `CappedPagesAreBounded` and `SkipSign`.
