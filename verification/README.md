# ehr dashboard core, modelled in Dafny

This project models the logic at the centre of the EHR dashboard: the logic that is not rendering or proxying. It has four parts.

- **ModMed token cache** (`modmed_auth.dfy`).
  - Four module-level variables hold the credential: the access token, the refresh token, the expiry in epoch milliseconds, and the single in-flight grant.
  - Tokens come from the password grant or the refresh_token grant of RFC 6749 (sections 4.3 and 6).
  - Pure step functions over a `Credential` value specify the state machine. The class `TokenManager` holds the four variables, and each of its methods is proved equal to a step function.
  - The in-flight promise is a slot: `Idle`, or `Pending(kind, grant)`. Each grant started takes the next number, which stands for the identity of its promise.
  - A call either gets the cached token, starts a grant, or joins the pending one, and it carries the number of the grant it holds.
  - Settling the grant runs the assignments, on success only, records the outcome under the grant's number, and then runs the `finally` block. Awaiting a grant that has already settled gives that recorded outcome again.
  - `Valid` is the invariant of `TokenManager`: every method requires it and keeps it.
- **HTTP error normalisation and the ModMed interceptors** (`http.dfy`).
  - `toApiError` is a total mapping.
  - The request interceptor stamps the bearer token and the ModMed headers.
  - On a 401, the response interceptor refreshes, gets a token, and reissues the failed request once from itself.
- **Appointment scheduling rules** (`appointments.dfy`):
  - bundle flattening and participant-id extraction;
  - the provider double-booking check;
  - the duration, required-field and date-time validators, and the create-form validation order;
  - the FHIR date-time normaliser and the appointment list filter.
- **Patient list operations**. `patients_page.dfy` covers the search filter, the edit form, and what save, delete and add do to the page's list and selection. `patients_store.dfy` covers the store's `setList` and `updateById`.

Several helper modules support these parts:

- `Wrappers` holds `Option`.
- `Text` holds `includes`, `toLowerCase`, `trim` and `split("/").pop()` over `seq<char>`.
- `Seqs` holds an order-preserving filter, a select-and-rewrite map, and "last element satisfying" with their lemmas.

Some things are modelled as parameters or plain values:

- **Time.** `Date.now()` is the parameter `now`, in integer milliseconds.
- **Dates.** `new Date(s).getTime()` is a parameter `parse: string -> Option<int>`. `None` stands for `NaN`, which makes every comparison false. The two locale renderings of a date are parameters too.
- **Network outcomes.** Each outcome is a parameter:
  - the answer of the token endpoint, `GrantResponse`;
  - the result of a reissued request;
  - whether a patients API call succeeded;
  - the patient it returned.
- **Truthiness.** JavaScript truthiness is kept where the code relies on it:
  - an empty-string token is "no token";
  - an expiry of `0` is "no expiry";
  - a `null` token is printed as `Bearer null`.

The provider test of `hasConflict` is a substring test. Provider `1` therefore also matches appointments of provider `12`. The lemma `Appointments.ProviderMatchIsBySubstring` exhibits this. The model keeps the behaviour as written.

## Model

| member | source | states |
|---|---|---|
| ModmedAuth.WillExpireSoon | src/lib/modmedAuth.ts:121-124 | true whenever the access token or the expiry is missing or falsy; otherwise true iff `now >= expiresAt - buffer*1000` |
| ModmedAuth.ExpirySoonIsMonotone | src/lib/modmedAuth.ts:121-124 | once a token is about to expire it stays so at every later time |
| ModmedAuth.FetchStep | src/lib/modmedAuth.ts:126-129 | with a grant pending, the caller joins that grant and nothing changes; otherwise a password grant is started under the next number and left pending; the token fields and settled outcomes are never touched by starting |
| ModmedAuth.RefreshStep | src/lib/modmedAuth.ts:162-166 | with no truthy refresh token it is exactly the password-grant path, tested before the pending check; otherwise joins a pending grant or starts a refresh_token grant under the next number; the caller always holds the grant left pending |
| ModmedAuth.GetStep | src/lib/modmedAuth.ts:198-203 | the cached token is returned, with no state change, iff a token exists and is not expiring within 60 s; otherwise it is exactly the password-grant path and never starts a refresh grant |
| ModmedAuth.SettleStep | src/lib/modmedAuth.ts:129-156 | a password grant overwrites both tokens with the response values or null; a refresh keeps the old value of an absent field (lines 182-183); expiry becomes `now + (expires_in ?? 1500)*1000`; a failed POST leaves all token fields unchanged and rejects; the outcome is recorded as the value of that grant's promise; the slot is emptied in every case |
| ModmedAuth.AwaitStep | src/lib/modmedAuth.ts:127-159 | a cached call resolves to its token with no change; a call holding the grant in flight settles that grant; a call holding a settled grant gets its recorded outcome with no change; a call holding any other grant cannot be awaited |
| ModmedAuth.SettledOnce | src/lib/modmedAuth.ts:127-159 | once a grant has settled, awaiting it again gives the same outcome whatever the network would answer, and changes nothing |
| ModmedAuth.ValidIsPreserved | src/lib/modmedAuth.ts:110-203 | the initial state and every step, await included, keep the invariant: a pending refresh grant was started with a refresh token; any held token has an expiry; the pending grant and every settled one were numbered when started; the pending one has not settled |
| ModmedAuth.FreshRefreshIsCached | src/lib/modmedAuth.ts:182-186 | after a refresh that returned a usable token living longer than the margin, the next `getAccessToken` at that instant returns that token from the cache |
| ModmedAuth.IssueAll | src/lib/modmedAuth.ts:126-203 | issuing calls one after the other yields one call result per request |
| ModmedAuth.SingleFlight | src/lib/modmedAuth.ts:127 | calls arriving before the grant settles start at most one grant, and none if one was pending; the count of grants started grows by exactly that; no token field or settled outcome changes; every non-cached caller holds the very grant that is left pending |
| ModmedAuth.AllCallersShareTheOutcome | src/lib/modmedAuth.ts:127-159 | after such a batch, whichever non-cached caller awaits first settles the one pending grant, and every non-cached caller, first or later, gets that same settlement |
| ModmedAuth.TokenStorm | src/lib/modmedAuth.ts:198-200 | `n >= 1` concurrent `getAccessToken` calls on an unusable cache start exactly one password grant under the next number; the first caller starts it, the rest join that same grant, and each of the `n` callers gets that grant's one settlement |
| ModmedAuth.JoinersOnly | src/lib/modmedAuth.ts:127 | with a password grant pending and no usable token, every further `getAccessToken` joins that grant and changes nothing |
| ModmedAuth.TokenManager.constructor | src/lib/modmedAuth.ts:110-113 | all four variables start as null, no promise handed out, and the invariant holds |
| ModmedAuth.TokenManager.FetchAccessToken | src/lib/modmedAuth.ts:126-160 | the new state and the call equal `FetchStep` of the old state; the invariant is kept |
| ModmedAuth.TokenManager.RefreshAccessToken | src/lib/modmedAuth.ts:162-196 | the new state and the call equal `RefreshStep` of the old state; the invariant is kept |
| ModmedAuth.TokenManager.GetAccessToken | src/lib/modmedAuth.ts:198-203 | the new state and the call equal `GetStep` of the old state; the invariant is kept |
| ModmedAuth.TokenManager.Settle | src/lib/modmedAuth.ts:146-156 | the new state and the settlement equal `SettleStep` of the old state; the invariant is kept |
| ModmedAuth.TokenManager.Await | src/lib/modmedAuth.ts:127-159 | only a call holding a token, the grant in flight or a settled grant can be awaited; the new state and the settlement equal `AwaitStep` of the old state; the invariant is kept |
| Http.ToApiError | src/lib/http.ts:139-148 | for an axios error, the status is the response status or 500, the message is the body's `message` or the error's own, and the details are the body; any other error maps to 500 and "Unknown error" |
| Http.ApiErrorStatus | src/lib/http.ts:140-147 | the reported status is the response's when there is one, and 500 exactly otherwise |
| Http.Bearer | src/lib/http.ts:109 | `Bearer <token>`, and `Bearer null` for a null token |
| Http.ModmedHeaders | src/lib/http.ts:105-113 | the headers are the old ones (or none) plus Authorization, x-api-key, Content-Type `application/json` and Accept `application/fhir+json` with their values; every other header is kept |
| Http.AuthorizeRequest | src/lib/http.ts:105-114 | awaits `getAccessToken` as `GetStep` then `AwaitStep`; the request is sent with the ModMed headers and the obtained token, and is not sent if the token promise rejects; the token cache's invariant is kept |
| Http.WithBearer | src/lib/http.ts:122-125 | the reissued config keeps its URL and its headers (or none), with Authorization replaced by the new bearer |
| Http.ReactToError | src/lib/http.ts:116-131 | a non-401 error changes nothing and reissues nothing; on a 401 the slot ends idle; a failed refresh reissues nothing and leaves the tokens; a reissue happens only after a successful refresh, with the error's config, carrying the token `getAccessToken` returned; after a successful refresh with a config present, the request is reissued iff `getAccessToken` is served from the cache or its grant succeeds |
| Http.RefreshedTokenIsReissued | src/lib/http.ts:120-126 | when the refresh returns a usable token that outlives the margin, the request is reissued with exactly that token |
| Http.OnModmedError | src/lib/http.ts:116-131 | the token state and the reissued config are those of `ReactToError`; once a request is reissued the result is the reissued request's own outcome, success or failure; otherwise the original error; a non-401 error is rejected with the state untouched |
| Appointments.Resources | src/app/appointments/page.tsx:246-250 | exactly the defined resources with a defined id, in order, and no others |
| Appointments.ResourcesAppend | src/app/appointments/page.tsx:246-250 | flattening distributes over concatenation of entry lists |
| Appointments.ParseBundle | src/app/appointments/page.tsx:244-251 | no bundle or no `entry` gives `[]`; otherwise the resources of the entries |
| Appointments.LastOfKindIsLast | src/app/appointments/page.tsx:259-268 | the id of a kind exists iff some participant is of that kind, and it is the last path segment of the reference of the last such participant |
| Appointments.LastOfKindSnoc | src/app/appointments/page.tsx:259-268 | one more participant overrides the id of its own kind and leaves the other kinds |
| Appointments.ExtractIds | src/app/appointments/page.tsx:254-271 | the loop's three locals end as the last id of each kind, with the kinds tested in the order Patient, Practitioner, Location |
| Appointments.AnyClash | src/app/appointments/page.tsx:329-336 | true iff some appointment clashes: not ignored, same provider, `s < aE && aS < e` |
| Appointments.HasConflict | src/app/appointments/page.tsx:326-337 | true iff some appointment clashes with the parsed proposed interval |
| Appointments.NoAppointmentsNoConflict | src/app/appointments/page.tsx:329 | an empty list never conflicts |
| Appointments.OtherProvidersNeverConflict | src/app/appointments/page.tsx:331-332 | appointments without a matching practitioner reference never conflict |
| Appointments.IgnoredNeverConflicts | src/app/appointments/page.tsx:330 | entries whose id equals a non-empty `ignoreId` are never counted |
| Appointments.DisjointNeverConflicts | src/app/appointments/page.tsx:333-335 | intervals that do not overlap, including ones that only touch, do not conflict |
| Appointments.MissingTimesNeverConflict | src/app/appointments/page.tsx:333-335 | an appointment with no start or no end never conflicts |
| Appointments.OverlapConflicts | src/app/appointments/page.tsx:329-336 | an overlapping, non-ignored appointment of the same provider is a conflict |
| Appointments.ProviderMatchIsBySubstring | src/app/appointments/page.tsx:331 | a `/Practitioner/12` reference matches provider `1` |
| Appointments.RoundedMinutes | src/app/appointments/page.tsx:147 | the rounded minutes are within half a minute of the duration |
| Appointments.ValidateDuration | src/app/appointments/page.tsx:140-141 | an empty start or end is rejected before any arithmetic |
| Appointments.AcceptedDurations | src/app/appointments/page.tsx:140-165 | a duration is accepted iff both times are present and parse, and the rounded minutes are a multiple of 5 in [15, 480] |
| Appointments.WholeMinutes | src/app/appointments/page.tsx:147 | a whole number of minutes rounds to itself |
| Appointments.SevenRefusedFifteenAccepted | src/app/appointments/page.tsx:153-165 | 7 minutes fails the 5-minute check and 15 minutes is accepted |
| Appointments.DurationErrorOrder | src/app/appointments/page.tsx:140-165 | the error a duration gets follows the order of the checks: both times required; an unparseable time fails the 5-minute step; then rounded minutes `<= 0`, a positive non-multiple of 5, exactly 5 or 10, and a multiple of 5 above 480 each get their own error, and only those |
| Appointments.EndNotLaterIsRefused | src/app/appointments/page.tsx:146-151 | an end not later than the start is reported as "End time must be after start time" |
| Appointments.ValidateRequired | src/app/appointments/page.tsx:128-130 | `null` iff the value is not blank; otherwise "<field> is required" |
| Appointments.ValidateDateTime | src/app/appointments/page.tsx:132-138 | `null` iff the value is non-empty, parses, and is not before `now` |
| Appointments.StartError | src/app/appointments/page.tsx:434-446 | the start field's error: its own date-time error, else the duration message, only when both date-times passed |
| Appointments.RequiredFieldErrors | src/app/appointments/page.tsx:427-431 | an error exactly for each blank required field, each with its own message, and no other key |
| Appointments.ValidateCreateForm | src/app/appointments/page.tsx:424-450 | an error exactly for each blank required field, with the provider, patient, location and type messages; the end's date-time error; the start's error as `StartError`; valid iff no error |
| Appointments.FormatForFhir | src/app/appointments/page.tsx:340-345 | appends `:00.000Z` iff the input is non-empty and contains neither `Z` nor `+`, and is otherwise the identity |
| Appointments.FormatForFhirIdempotent | src/app/appointments/page.tsx:340-345 | normalising twice equals normalising once |
| Appointments.FilterAppointments | src/app/appointments/page.tsx:650-711 | exactly the appointments matching every non-empty filter, as an order-preserving subsequence; with no filters, the whole list |
| Seqs.Filter | src/app/patients/page.tsx:220 | `filter` keeps exactly the elements satisfying the predicate, in order, and keeps everything when all satisfy it |
| Seqs.FilterAppend | src/app/patients/page.tsx:220 | filtering a concatenation filters each part |
| Seqs.MapWhere | src/store/patients.ts:83 | same length; selected elements rewritten, the others identical |
| Seqs.MapWhereNoneSelected | src/store/patients.ts:83 | rewriting where nothing is selected changes nothing |
| Seqs.MapWhereTwice | src/store/patients.ts:81-84 | two rewrites of one selection, the first keeping it selected, are one rewrite by the composition |
| Seqs.LastWhereIsLast | src/app/appointments/page.tsx:259-268 | a result exists iff some element satisfies the test, and it comes from the last such element |
| Seqs.LastWhereSnoc | src/app/appointments/page.tsx:259-268 | an appended element overrides the result iff it satisfies the test |
| Text.Lower | src/app/patients/page.tsx:219 | same length, each character lower-cased |
| Text.LowerLaws | src/app/patients/page.tsx:219 | lower-casing distributes over concatenation and is idempotent |
| Text.TrimStart | src/app/patients/page.tsx:219 | strips exactly the leading whitespace |
| Text.TrimEnd | src/app/patients/page.tsx:219 | strips exactly the trailing whitespace |
| Text.NotBlankWithNonSpace | src/app/patients/page.tsx:128 | a string holding any non-whitespace character does not trim to the empty string |
| Text.TrimLeavesNothingIffBlank | src/app/patients/page.tsx:217 | `trim` leaves the empty string iff every character is whitespace, so `!s.trim()` is `IsBlank` |
| Text.LastSegment | src/app/appointments/page.tsx:262 | `split("/").pop()` is the suffix after the last `/`, and the whole string when there is none |
| PatientsStore.UpdatedById | src/store/patients.ts:81-84 | length and order preserved; each entry with the id replaced by `updater` of it; the others identical |
| PatientsStore.UpdateOfMissingIdIsIdentity | src/store/patients.ts:83 | when no entry has the id, the list is unchanged |
| PatientsStore.UpdatesCompose | src/store/patients.ts:81-84 | two updates of one id, the first keeping the id, are one update by the composition |
| PatientsStore.Store.constructor | src/store/patients.ts:79 | the store starts with an empty list |
| PatientsStore.Store.SetList | src/store/patients.ts:80 | the list becomes the argument |
| PatientsStore.Store.UpdateById | src/store/patients.ts:81-84 | the list becomes `UpdatedById` of the old list |
| PatientsPage.Fallback | src/app/patients/page.tsx:248-251 | the top-level value if filled, else the nested one if filled, else `""`; non-empty iff either is filled |
| PatientsPage.InitEditForm | src/app/patients/page.tsx:241-254 | every field is set: names, e-mail and mobile from the patient or `""`; each address field from the top level, else the nested address, else `""` |
| PatientsPage.Overlay | src/app/patients/page.tsx:176 | a field present in the form wins; id, dob, sex, nicknames and the nested address stay the patient's |
| PatientsPage.EmptyFormOverlaysNothing | src/app/patients/page.tsx:61 | overlaying the initial empty form changes nothing |
| PatientsPage.UntouchedSaveIsIdempotent | src/app/patients/page.tsx:176-178 | saving an untouched form a second time changes nothing |
| PatientsPage.FilterPatients | src/app/patients/page.tsx:216-238 | a blank query returns the list unchanged; otherwise exactly the patients matching the lower-cased, trimmed query in the chosen mode, as an order-preserving subsequence |
| PatientsPage.EveryModeWithinAll | src/app/patients/page.tsx:221-236 | whatever the name, id or nickname mode finds, the "all" mode finds too |
| PatientsPage.LowerKeepsSpaces | src/app/patients/page.tsx:217-219 | lower-casing keeps whitespace and non-whitespace as they were |
| PatientsPage.SearchIgnoresQueryCase | src/app/patients/page.tsx:217-219 | the result does not depend on the case of the query |
| PatientsPage.ReplaceById | src/app/patients/page.tsx:177 | same length; every entry with the id becomes the updated patient; the others identical |
| PatientsPage.RemoveById | src/app/patients/page.tsx:204 | no entry with the id remains; every other entry is kept, in order; the list is unchanged if none had the id |
| PatientsPage.SavedPatientIsListed | src/app/patients/page.tsx:176-177 | a saved patient keeps its id, so it appears in the list after the save |
| PatientsPage.PatientsView.constructor | src/app/patients/page.tsx:54-62 | no patients, no selection, empty forms |
| PatientsPage.PatientsView.Select | src/app/patients/page.tsx:241-254 | the selection becomes the argument; the edit form is refilled from the patient only when a patient is selected and the selection changed, and otherwise keeps its edits |
| PatientsPage.PatientsView.EditSelected | src/app/patients/page.tsx:61 | only the edit form changes |
| PatientsPage.PatientsView.EditNewPatient | src/app/patients/page.tsx:62 | only the add form changes |
| PatientsPage.PatientsView.SavePatient | src/app/patients/page.tsx:160-187 | with no selection or a failed PATCH nothing changes; otherwise the overlaid patient replaces every entry with the selected id, becomes the selection, and always refills the form, being a new object |
| PatientsPage.PatientsView.DeletePatient | src/app/patients/page.tsx:190-213 | unconfirmed or failed: nothing changes; otherwise every entry with the id is removed, and the selection is cleared iff it had that id |
| PatientsPage.PatientsView.AddPatient | src/app/patients/page.tsx:127-157 | a request is made iff both names are non-blank; on success the created patient is appended at the end and the add form is cleared; otherwise the list is unchanged |

## Left out

- Network I/O is out: the grant POST bodies, the patients API requests, the fetch/axios timeouts and the console logging. Each outcome is a parameter.
- Real concurrency is out. Promise interleavings become a sequential state machine with an explicit pending slot. Promise identity is a grant number: a caller that joins a grant holds that grant's number, and awaiting it gives that grant's one settlement.
- `Number(expires_in)` of a non-numeric string (`NaN`) is out; `expires_in` is an optional integer.
- Dates are out: `new Date`, `toLocaleDateString` and the wall clock are parameters. Milliseconds are unbounded integers, so no float rounding is modelled.
- Text.Lower: maps ASCII letters only, not JavaScript's full Unicode case mapping.
- Http.OnModmedError: the reissued request goes through the same client and its interceptors again, a 401 included; here its outcome, whatever it is, is the parameter `reissue`. No bound on retries is claimed, because the code enforces none.
- `error.config` missing on a 401 is modelled as "nothing reissued". The code gets there through a TypeError caught by the same `catch`.
- The Cerbo client's Basic-auth interceptor is out. It relies on `Buffer` base64 encoding.
- The user-facing error-message mapping is out: `handleModMedError` and the SOAP-note check on delete.
- Also out: `handleStartTimeChange`, the reschedule form validation, and the UI-only flags (edit mode, loading, saving, toasts).
- Appointments.ValidateDuration: the `catch` branch is not modelled. Nothing in the `try` block can throw once dates are integers.
- A `null` entry `resource` in a bundle is not modelled; in the code it would throw on `.id`.
- Loading the patient list (`loadPatients`, `fetchPatientById`) is out. Its response-shape handling is I/O.
- PatientsStore.Patient: keeps only the `id` and an opaque map of the other fields. The store never reads them.
- PatientsPage.PatientsView.Select: value equality stands in for React's object identity. Re-selecting a different object equal in value to the selected one refills the form in the code, but not in the model.
- PatientsPage.Overlay: a form key present with value `undefined` is not distinguished from an absent key. The page only ever fills the form with strings.
