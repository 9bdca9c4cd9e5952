# Google Search demo client — a Dafny model of its core

The application is a small React client sold through the AppyCentric
platform. When started from the platform it receives five values in its URL
query. It exchanges the one-time key for durable credentials, fetches the
plan's API list, validates that list into a catalog of the three Google
search APIs it knows and persists both records in `localStorage`. In a later
session it resumes from what it stored. Searching sends the stored key in
fixed headers, pages through results ten at a time, and strips the debug
payload the platform may append to a response.

The model in Dafny:

- `Js`: the JavaScript semantics the client relies on: `undefined` as
  `Option`, a thrown error as `Result.Failure`, truthiness, `a || b`,
  `indexOf`, `trim` and JSON values.
- `Constants`, `Records`: the application constants and the record shapes
  with their empty defaults.
- `Storage`: `localStorage` as a class over a map from key to record. A
  record reads back as a catalog view, a session record, or text that does
  not parse.
- `Remote`: every platform reply is an input value. A `Network` object logs
  the requests sent, in order.
- `UiState`: the App component's state hooks, as one class. A React setter
  is an immediate assignment to its field; `Snapshot` is all hooks at once.
- `Appycentric`: reply normalisation for the two platform calls; the
  API-catalog validator (a loop over the list); the plan-API call, renewal
  and `setError`; debug-payload stripping.
- `Google`: pagination, the auth-header lookup (a loop, last match wins)
  and `search` with its parameter-update and error rules.
- `App`: capture of the start-up query, the bootstrap decision, the resume
  loop, the two-call initialisation, and the rule that strips the query
  from the URL.
- `Header`: the submission guards, `resetSearchPhrase`, the API selector,
  the Search button's disabled predicate, and the form as a class.

Methods are proved against specification functions (`Validate`,
`AuthHeaders`, `SearchAttempt`/`AfterSearch`, `AfterInitialize`,
`BootDecision`/`AfterBoot`). The lemmas beside them state what the source
promises about those functions.

The code behaves as follows where a reader might expect otherwise, and the
model does the same:

- The query is stripped from the URL in a `finally` block, on every path,
  not only after a successful bootstrap.
- Only the catalog record decides between resuming and "no credentials". A
  missing session record still resumes, with an empty saved record.
- The `APIs === []` comparison on the stored catalog is never true, so only
  `undefined` fields count as absent. A stored catalog with an empty list is
  resumed from and leaves `selectedAPI` as it was.
- Nothing ever removes a stored catalog; a failed renewal leaves it in place.
- The header lookup also fails when the matching key is empty, and a catalog
  without an API list fails with the engine's `TypeError`.
- The search checks for an embedded `error` before it strips the debug data.
  So the check only catches a body that arrives as an object. A text body
  whose parsed JSON carries an `error` field counts as a success.

Two further behaviours of the code are stated as lemmas:

- The validator's email and URL checks cannot fire on a record coming from
  `getPlanAPIs`, because missing values have already become `N/A`
  (`NormalizedRecordPassesFieldChecks`).
- With the API selector never touched, the Search button is disabled for a
  repeated phrase, yet Enter searches again (`RepeatWithUntouchedSelector`).

A failed second initialisation call sets `error` on a copy of the
parameters captured before the validator ran. So the API names the
validator set are replaced by the earlier ones (`AfterPlanCall`).

## Model

| member | source | states |
|---|---|---|
| Js.Or | src/util/appycentricFunctions.tsx:50-56 | `s \|\| fallback` on a possibly undefined string: the fallback exactly when `s` is undefined or empty, `s` itself otherwise |
| Js.OrNumber | src/util/appycentricFunctions.tsx:120 | `n \|\| fallback` on a possibly undefined number: the fallback exactly when `n` is undefined or 0 |
| Js.IndexOf | src/util/appycentricFunctions.tsx:300 | `indexOf`: -1 iff the pattern does not occur, otherwise an occurrence with none before it |
| Js.IndexOfAfterPayload | src/util/appycentricFunctions.tsx:300 | in payload + separator + rest, the first separator is the appended one when the payload neither contains it nor ends in a proper prefix of it |
| Js.TrimSpec | src/components/header/Header.tsx:67 | `trim` gives the contiguous part of its input left after removing whitespace before and after it, starting and ending with no whitespace, and "" exactly for an all-whitespace input |
| Records.Names | src/util/appycentricFunctions.tsx:252 | the names of a list of APIs, one per entry, in order |
| Storage.CatalogReadsBack | src/util/appycentricFunctions.tsx:274 | a written catalog reads back with its email, API list and URL |
| Storage.SessionReadsBack | src/util/appycentricFunctions.tsx:142 | a written session record reads back unchanged and does not disturb the catalog |
| Storage.ReadCatalog | src/App.tsx:73 | reading the catalog key gives `{}` when it is absent, the stored catalog when there is one, and a failure with the parser's error exactly when the stored text does not parse |
| Storage.ReadSession | src/util/appycentricFunctions.tsx:73 | reading the session key gives a record exactly when one is stored there, and a failure with the parser's error exactly when the stored text does not parse |
| Storage.LocalStorage.SetItem | src/util/appycentricFunctions.tsx:142 | `setItem` overwrites the key and changes nothing else |
| UiState.AppState.constructor | src/App.tsx:21-44 | the initial hook values: empty parameters on page 0, error view shown, empty results |
| Appycentric.InitReplyNormalization | src/util/appycentricFunctions.tsx:39-63 | a rejection keeps its status and message; no data or a falsy status gives 403 over the empty defaults; otherwise the status is kept and each missing field becomes N/A; so the status is 403, the rejection's or a non-zero reply status, and a delivered reply never leaves the message, email, key or URL empty |
| Appycentric.GetSystemApiCredentials | src/util/appycentricFunctions.tsx:27-65 | posts the four credentials to the start-up URL once and returns the normalised reply |
| Appycentric.PlanReplyNormalization | src/util/appycentricFunctions.tsx:108-139 | a record is produced iff the reply has data with a truthy status; it keeps that status, takes every field from the reply with N/A and [] for what is missing, and is not marked as saved |
| Appycentric.SurvivorsConcat | src/util/appycentricFunctions.tsx:230-257 | entries are judged one by one and survivors keep their input order |
| Appycentric.SurvivorsMembers | src/util/appycentricFunctions.tsx:230-257 | an entry is stored iff it has a recognised name, type "http" and a non-empty key; a bad entry is skipped, never fatal |
| Appycentric.SurvivorsEmpty | src/util/appycentricFunctions.tsx:230-266 | nothing survives iff no entry is kept |
| Appycentric.ValidateMeaning | src/util/appycentricFunctions.tsx:196-280 | status 200 or 500; a missing email or URL fails first, with no `setParams` and no write; an empty API list fails next with the "no product APIs" message, also with no `setParams`; otherwise the survivors' names are set with the first survivor selected (none selected when nothing survives); a catalog of email, URL and survivors, meeting the catalog invariant, is written iff status is 200, iff some entry is kept |
| Appycentric.ValidateAndStoreAPIParams | src/util/appycentricFunctions.tsx:196-280 | the `forEach` loop computes exactly the validation's status, message, parameters and storage write |
| Appycentric.GetPlanAPIs | src/util/appycentricFunctions.tsx:96-160 | posts the durable credentials once, returns the normalised record (annotated on a validation failure), persists it and applies its validation |
| Appycentric.PersistedBeforeValidation | src/util/appycentricFunctions.tsx:141-149 | the stored session record is the normalised reply itself; the returned record differs from it only in `validationInfo`, which carries the warning prefix and message when validation fails |
| Appycentric.NormalizedRecordPassesFieldChecks | src/util/appycentricFunctions.tsx:119-139 | a normalised record always has an email and URL, so its validation sets a selection iff it has APIs and succeeds iff some entry is kept |
| Appycentric.RenewParams | src/util/appycentricFunctions.tsx:70-93 | an unparseable session record gives 403 "Prior parameters are not valid." and changes nothing; otherwise the plan API is called with the stored credentials |
| Appycentric.SetError | src/util/appycentricFunctions.tsx:338-342 | only `error` changes in the parameters |
| Appycentric.ParseWhole | src/util/appycentricFunctions.tsx:309-313 | parsing the whole text gives the parser's value, or, exactly when the parser rejects it, the "Invalid API response format" error quoting the first 100 characters |
| Appycentric.RemoveDebugData | src/util/appycentricFunctions.tsx:292-314 | an object passes through; text with the separator gives the parse of the prefix before its first occurrence, or the whole text's parse when the prefix does not parse; text without it is parsed whole; the result fails iff the whole text fails to parse and the prefix (if any) fails too |
| Appycentric.ExtractDebugData | src/util/appycentricFunctions.tsx:329-336 | the parse of what follows the first separator, and `{}` when the text has no separator |
| Appycentric.DebugDataRoundTrip | src/util/appycentricFunctions.tsx:292-336 | appending a debug section and stripping it gives the payload's own parse, the same as the payload alone, and `extractDebugData` recovers the section's parse |
| Google.NextPageParams | src/util/googleFunctions.tsx:86-89 | `start` is the smaller of start + 10 and `totalResults`; `num` is the smaller of 10 and what is left after the new start; nothing else changes |
| Google.PrevPageParams | src/util/googleFunctions.tsx:97-100 | `num` is 10 and `start` is the larger of start - 10 and 1, so at least 1; nothing else changes |
| Google.PrevAfterNextRestoresStart | src/util/googleFunctions.tsx:88-100 | with a full page ahead, paging forward and back returns to the same start |
| Google.LastMatchIsLast | src/util/googleFunctions.tsx:134-138 | the key found is that of a matching entry after which no entry matches; none is found iff no entry matches |
| Google.AuthHeadersMeaning | src/util/googleFunctions.tsx:125-151 | headers exist iff the last entry named after the selected API has a non-empty key; they carry that key, the stored email, `{}`, `en` and `no` under the five header names; otherwise the "damaged" error, or a `TypeError` without an API list |
| Google.GetRequestHeaderWithAuthData | src/util/googleFunctions.tsx:125-151 | the loop over the catalog computes exactly the header outcome above |
| Google.SearchRequestShape | src/util/googleFunctions.tsx:22-42 | a request is sent iff the catalog reads and yields headers; it targets the stored URL with the current phrase, and a falsy explicit bound falls back to the current one |
| Google.SearchSuccess | src/util/googleFunctions.tsx:42-61 | a search succeeds iff its answered body carries no embedded error and survives debug stripping; an embedded error surfaces as the thrown error of its JSON text, a refusal as its data error, status text or error text |
| Google.SearchParamsRule | src/util/googleFunctions.tsx:52-57 | a failure changes only `error`; a success changes only the window, and only when both explicit bounds are truthy and one differs |
| Google.ReportSearchError | src/util/googleFunctions.tsx:62-79 | only `error` changes, on a copy of the parameters, and the error view opens |
| Google.SendSearch | src/util/googleFunctions.tsx:40-61 | the query view closes, the request is sent once, and the state follows the search rules for the reply |
| Google.Search | src/util/googleFunctions.tsx:17-81 | the result, the request log and the whole hook state are those of the specified search attempt; `{}` is returned on failure |
| Google.NextPage | src/util/googleFunctions.tsx:86-92 | moves the window forward on the shared parameters, then searches with them |
| Google.PrevPage | src/util/googleFunctions.tsx:97-103 | moves the window back on the shared parameters, then searches with them |
| App.CapturedQuery | src/App.tsx:21-28 | a captured value is the sentinel iff its query value is absent, empty or the sentinel, and is that value otherwise; fresh initialisation is attempted iff all five are supplied |
| App.BootDecision | src/App.tsx:52-91 | fresh initialisation iff no value is the sentinel; otherwise "no credentials" iff the stored catalog lacks its API list, URL or email; a resume reads both records; an unparseable record takes the catch branch |
| App.ValidatedCatalogResumes | src/App.tsx:73-85 | a catalog written with its session record is always resumed from when no start-up query is given, whatever its fields hold |
| App.SavedSession | src/App.tsx:112-116 | the shown session record is marked as saved and differs from the stored one only in its message, which gets the "saved in prior sessions" prefix |
| App.ResumedParams | src/App.tsx:118-126 | the stored names are appended in order after the existing ones, the first one selected, with the "reused" message |
| App.InitializeOutcome | src/App.tsx:189-218 | the plan API is called iff the first status is in [200,300); whichever call fails puts its message into `error` and opens the error view; only a double success closes it and shows the plan record |
| App.InitializeAppFromProvidedParams | src/App.tsx:189-218 | the hooks, the storage and the request log end as the specified initialisation says |
| App.PlanCall | src/App.tsx:199-211 | the second call and its status branch, on the captured parameter object |
| App.BootWithoutQuery | src/App.tsx:71-129 | without a start-up query nothing is sent or stored; missing credentials set only the "neither…" error and open the error view; a resume closes it, shows the stored record as saved with the prefixed message, marks the first call as not made and appends the stored names |
| App.ResumeFromStorage | src/App.tsx:91-128 | the `forEach` with its `first` flag yields exactly the resumed hook state |
| App.StripQuery | src/App.tsx:135-140 | the URL is cut before its first `?` when that is past index 0, leaving no `?`; otherwise it is kept |
| App.StripQueryIdempotent | src/App.tsx:135-140 | stripping twice is stripping once |
| App.Bootstrap | src/App.tsx:46-143 | the start-up effect takes the decided branch, ends in the specified hook state, storage and request log, and the URL is stripped on every path |
| Header.SubmittedParams | src/components/header/Header.tsx:71-77 | an accepted submission sets the new API if one was picked (else keeps the selection), the new phrase and an empty error, and nothing else |
| Header.GuardsMeaning | src/components/header/Header.tsx:15-44 | an empty phrase never searches, an unchanged submission on page 1 never searches, and a submission searches iff its phrase is non-empty and the reset does not decline; off page 1 every non-empty phrase searches |
| Header.ButtonDisabledMeaning | src/components/header/Header.tsx:106-110 | the Search button is disabled iff on page 1 the phrase is blank or repeats a non-blank old phrase up to whitespace, and the API is unpicked or repeats a picked one; never on another page |
| Header.EnabledButtonSearches | src/components/header/Header.tsx:105-111 | a click on an enabled button with a non-empty phrase always searches |
| Header.RepeatWithUntouchedSelector | src/components/header/Header.tsx:105-111 | with the selector untouched, a repeated phrase leaves the button disabled yet Enter searches again |
| Header.SubmissionSearchesFirstPage | src/components/header/Header.tsx:27-28 | an accepted submission requests rows from 1, ten at a time, for the new phrase, and a success leaves that window and phrase in the parameters |
| Header.SearchForm.constructor | src/components/header/Header.tsx:10-13 | the form starts with empty phrases and APIs |
| Header.SearchForm.HandleChange | src/components/header/Header.tsx:47-50 | the phrase input sets only the new phrase |
| Header.SearchForm.HandleChangeAPI | src/components/header/Header.tsx:52-61 | the pick is remembered and only `selectedAPI` changes, in a copy of the parameters |
| Header.SearchForm.ResetSearchPhrase | src/components/header/Header.tsx:64-80 | a repetition (equal up to trimming, same API, page 1) returns false and changes nothing; otherwise the submission is remembered, the parameters reset, and the result says whether the phrase is non-empty |
| Header.SearchForm.Submit | src/components/header/Header.tsx:15-29 | searches iff the guards accept; a declined submission changes nothing; an accepted one searches the first page with the reset parameters |
| Header.SearchForm.HandleKeyPress | src/components/header/Header.tsx:31-44 | Enter submits under the same guards, with the same resulting state and requests as a click, a declined Enter changing nothing; every other key does nothing |

## Left out

- The HTTP transport (axios POST and GET): every reply is an input value, and the requests are only logged.
- A network failure without a response makes the catch blocks of `getSystemApiCredentials` and `getPlanAPIs` throw in turn, because they read `error.response.status`. That crash is not modelled: a rejection always carries a response. The same goes for the promise `catch` in the start-up effect that only this crash reaches, and for `renewParams` catching it.
- `JSON.parse` and `JSON.stringify` internals: parsing is an abstract partial function, and records are stored as values. A record of the wrong kind under a key reads as `{}`.
- Values of the wrong JSON type (a non-array `APIs`, a string `totalResults`, a non-string error message) are outside the model's types. `totalResults` is an integer, so the `NaN` of a missing one is not modelled.
- `Date.now` and `toISOString`: the `renewedAt` time stamp is a parameter.
- `decodeURIComponent` of the status text: the status text is taken as already decoded.
- `clog` console logging, and the blurring and `preventDefault` of events.
- The asynchronous React setters: a setter is an immediate assignment. Re-rendering and the asynchronous interleaving of the two platform calls are not modelled.
- `window.location` and `window.history`: only the rule that computes the stripped URL is modelled.
- The engine's exact error texts are constants: the `TypeError` of a missing API list, and the rendering of a parse error in the catch message.
- An `undefined` header value is dropped from the header map, as axios does.
- Results, ErrorView and Footer are presentational only and are not part of this model.
- Google.NextPage: takes `totalResults` as a parameter instead of reading `searchResults.searchInformation.totalResults`, because the results are JSON whose field may be missing or a string that `Math.min` coerces.
- Remote.Body: a response body that is a string always arrives as `Text`. `Structured` stands for an object body only, and a `Structured` string is not a case the model gives meaning to.
- Appycentric.ParseWhole: the quoted prefix of an unparseable body is cut at 100 characters, not at 100 UTF-16 code units as `substring` counts them.
- App.SavedSession: with no stored session record, the model shows the empty defaults with the two overwritten fields, not an object with only those two fields.
