# Cora side-panel API client, modelled in Dafny

This project models the authenticated API client of the Cora Chrome extension. It also models the decision rules that the extension's React screens build on top of that client.

- **Token store and the two auth flows** (`auth.js`):
  - `localStorage` holds `accessToken`, `refreshToken` and `user`.
  - `AuthLogin` stores the two tokens only when both arrive.
  - `refreshAccessToken` picks the new tokens from either field spelling. Its failure policy logs the user out unless the error looks like a network failure.
- **The fetch wrapper** (`interceptor.js`). It injects `Authorization: Bearer <token>` (section 2.1 of RFC 6750). On a 401 (section 15.5.2 of RFC 9110) it refreshes once and retries exactly once. A thrown first fetch becomes a synthetic 500 JSON response.
- **The request builders**: the HCC candidate service, the HCC risk service, the patient calls and the endpoint tables with `handleApiResponse`.
- **The screens' logic**:
  - reading the patient's name and date of birth from the EHR header, and the exact-match search (`ExtractPatientData.jsx`);
  - the risk-card transform and sort (`PatientDetail.jsx`);
  - the suspected-code group sort and the pre-checked evidence ids (`SuspectedCodes.jsx`);
  - the badge and action rules of a card (`HccCard.jsx`);
  - the paged patient search (`PatientSearch.jsx`);
  - the login flag and route guards (`App.jsx`).

## How the model is built

- **Browser and network.** The browser is a `Web.World`: the storage map, the log of every request sent, the navigation events and the reload count. `Web.Browser` is the same state as a mutable object. The network is an oracle `server(request, n)` that answers the `n`-th fetch of the log with a response or a rejection. That is why every property below holds for every server.
- **Imperative code.** The wrapper, the auth flows, the service methods and the component handlers are methods on `Browser` and on classes holding the components' state. Each method is proved equal to a pure function of the old state, such as `Interceptor.Exchange`, `Auth.Refresh` or `PatientSearch.SearchFlow`. The lemmas state the properties of those functions.
- **JSON.** JSON values are a `Js.Json` datatype. `JSON.stringify` is `Web.Stringify`, and a response carries its text and its parsed value.
- **Errors.** A thrown error is the `Err` case of `Js.Result`, and a `null` read throws the TypeError V8 would.
- **Sorting.** `Array.prototype.sort` with a consistent comparator is `Sorting.Sort`, a stable insertion sort.

## Model

| member | source | states |
|---|---|---|
| Auth.TokensOf | cora-chrome-extension/src/api/auth.js:21-26 | `getStoredTokens` returns the two stored values, `null` when absent |
| Auth.GetStoredTokens | cora-chrome-extension/src/api/auth.js:21-26 | reading the two keys from the browser gives `TokensOf` of its state |
| Auth.StoreTokens | cora-chrome-extension/src/api/auth.js:15-18 | the browser state afterwards is the old one with both tokens written |
| Auth.ClearTokens | cora-chrome-extension/src/api/auth.js:28-33 | the browser state afterwards is the old one with the three keys removed |
| Auth.StoreThenGet | cora-chrome-extension/src/api/auth.js:15-26 | storing two tokens and reading them back gives those two tokens, and every other key keeps its value |
| Auth.ClearRemovesCredentials | cora-chrome-extension/src/api/auth.js:28-33 | clearing removes `accessToken`, `refreshToken` and `user`, and nothing else |
| Auth.HandleApiResponse | cora-chrome-extension/src/api/auth.js:7-13 | an OK response yields its parsed body; a non-OK one always throws: with `String(message)` when the parsed body's `message` is truthy, "API request failed" otherwise, a TypeError reading `message` of a `null` body, and the parse error when the body does not parse |
| Auth.NotNetworkError | cora-chrome-extension/src/api/auth.js:130 | a message without an "E" or "F" contains neither "NetworkError" nor "Failed to fetch" |
| Auth.LoginRequest | cora-chrome-extension/src/api/auth.js:49-61 | the login POST goes to the login path with body `{username: email, password}` |
| Auth.LoginResult | cora-chrome-extension/src/api/auth.js:63-76 | a login succeeds only on an OK response whose parsed body carries truthy `access_token` and `refresh_token`, and the new tokens are their string forms |
| Auth.AuthLogin | cora-chrome-extension/src/api/auth.js:45-81 | the method's result and the new browser state are those of `Login` |
| Auth.LoginEffect | cora-chrome-extension/src/api/auth.js:45-81 | a login sends exactly one request; it writes the store only on success, and then exactly the string forms of the two truthy tokens |
| Auth.LoginRejectsNonOk | cora-chrome-extension/src/api/auth.js:7-13 | a non-OK login with a non-null body throws `String(message)` when it is truthy, else "API request failed", before any store write |
| Auth.LoginNeedsBothTokens | cora-chrome-extension/src/api/auth.js:67-76 | on an OK non-null body, login succeeds iff both snake_case tokens are truthy, and then stores their string forms; otherwise it throws "Login failed: No tokens received" and leaves the store alone |
| Auth.RefreshRequest | cora-chrome-extension/src/api/auth.js:95-101 | the refresh POST goes to the refresh path with body `{refresh_token}` |
| Auth.NewAccessToken | cora-chrome-extension/src/api/auth.js:115 | the access token is `accessToken` when truthy, else `access_token`, whatever their types |
| Auth.NewRefreshToken | cora-chrome-extension/src/api/auth.js:116 | the refresh token is the string form of `refreshToken`, else of `refresh_token`, else the previous token, so it is never empty when the previous one was not |
| Auth.RefreshResult | cora-chrome-extension/src/api/auth.js:103-125 | a refresh succeeds only on an OK response with a truthy access token, and resolves with that token's string form |
| Auth.RefreshAccessToken | cora-chrome-extension/src/api/auth.js:83-140 | the method's result and the new browser state are those of `Refresh` |
| Auth.RefreshWithoutToken | cora-chrome-extension/src/api/auth.js:85-139 | without a stored refresh token, the refresh throws "No refresh token available", sends nothing, and logs out |
| Auth.RefreshNonOk | cora-chrome-extension/src/api/auth.js:105-139 | a non-OK refresh throws "Token refresh failed with status: <status>" and logs out |
| Auth.IntToStringChars | cora-chrome-extension/src/api/auth.js:108 | a rendered status has only digits and a minus sign |
| Auth.RefreshSuccess | cora-chrome-extension/src/api/auth.js:115-121 | a successful refresh stores the two new tokens and resolves with them |
| Auth.RefreshFailurePolicy | cora-chrome-extension/src/api/auth.js:126-139 | every refresh error is rethrown; the store is cleared and "/login" is dispatched and the page is reloaded exactly when the message contains neither "NetworkError" nor "Failed to fetch" |
| Auth.RefreshFetchesAtMostOnce | cora-chrome-extension/src/api/auth.js:95 | a refresh sends at most one request, and only the refresh request |
| Interceptor.HeaderOf | cora-chrome-extension/src/api/interceptor.js:25 | a header is present iff the header object exists and holds that name |
| Interceptor.Authorize | cora-chrome-extension/src/api/interceptor.js:20-27 | the header object exists afterwards; Bearer is added only when a token exists and no Authorization header is set, and otherwise the headers are unchanged |
| Interceptor.Reauthorize | cora-chrome-extension/src/api/interceptor.js:51 | Authorization is overwritten with the refreshed Bearer token |
| Interceptor.RequestOf | cora-chrome-extension/src/api/interceptor.js:12-38 | the fetch goes to base + endpoint with the options' method (GET when absent), headers and body |
| Interceptor.ErrorDocument | cora-chrome-extension/src/api/interceptor.js:67-70 | the synthetic body has `error: message or "Network request failed"` and `details: error.toString()` |
| Interceptor.RequestOptions.constructor | cora-chrome-extension/src/api/interceptor.js:11 | the caller's options object holds the given value |
| Interceptor.ApiClient.constructor | cora-chrome-extension/src/api/interceptor.js:9 | the wrapper remembers its base URL |
| Interceptor.ApiClient.Call | cora-chrome-extension/src/api/interceptor.js:11-75 | the result, the browser state and the mutated options are those of `Exchange`; an omitted options object is a fresh `{}` |
| Interceptor.FirstRequestHeaders | cora-chrome-extension/src/api/interceptor.js:16-27 | the first request carries "Bearer " + token when a token is stored and no Authorization was given; a given header is kept, and without a token none is added |
| Interceptor.CallLog | cora-chrome-extension/src/api/interceptor.js:38-55 | a call appends the first request, then possibly the refresh request and the retry, and nothing else |
| Interceptor.AtMostTwoFetchesOfUrl | cora-chrome-extension/src/api/interceptor.js:38-55 | each call fetches the caller's URL at most twice |
| Interceptor.Non401Passthrough | cora-chrome-extension/src/api/interceptor.js:38-63 | a first response other than 401 is returned unchanged after exactly one fetch |
| Interceptor.RetryAfterRefresh | cora-chrome-extension/src/api/interceptor.js:42-55 | after a 401 and a successful refresh, exactly one retry is sent with the new Bearer header, and its outcome is the call's outcome |
| Interceptor.OriginalResponseWhenRefreshFails | cora-chrome-extension/src/api/interceptor.js:56-60 | after a 401 and a failed refresh, the original 401 response is returned and no retry is sent |
| Interceptor.NetworkFailureBecomes500 | cora-chrome-extension/src/api/interceptor.js:64-73 | a rejected first fetch returns a 500 JSON response carrying the error document |
| Interceptor.ThrowsOnlyOnRetry | cora-chrome-extension/src/api/interceptor.js:55 | the wrapper throws only after at least two requests, with the rejection of the last one: the un-awaited retry |
| Interceptor.OptionsMutated | cora-chrome-extension/src/api/interceptor.js:20-51 | the caller's options end up with a header object; after a retry the store holds an access token and the header object holds `Bearer <that token>` |
| Services.BearerValue | cora-chrome-extension/src/api/HccRiskService.js:25 | the header is "Bearer " + token, and "Bearer null" without a token |
| Services.ServiceHeaders | cora-chrome-extension/src/api/HccRiskService.js:23-26 | every service request sends exactly `Content-Type: application/json` and that Authorization header |
| Services.FailureError | cora-chrome-extension/src/api/HccCandidatesService.js:54-58 | a fixed-message method throws its message; a body-message method throws `String(message)` when it is truthy, else its fallback, a TypeError on a `null` body, and the fallback when the body does not parse |
| Services.Settle | cora-chrome-extension/src/api/HccRiskService.js:35-40 | a rejected fetch is rethrown, a non-OK status throws the method's error, and an OK response yields its parsed body |
| Services.Send | cora-chrome-extension/src/api/HccRiskService.js:17-41 | the method's result and new browser state are those of `Perform` |
| Services.SingleFetchNoRefresh | cora-chrome-extension/src/api/HccRiskService.js:19-35 | a service method sends exactly one request built from the stored token, changes nothing else, and a 401 is a failure with no refresh |
| HccRiskService.ByPatientAndBatchCall | cora-chrome-extension/src/api/HccRiskService.js:17-35 | POST to the by-patient-batch path with `patient_id`, `batch_id`, `limit` (default 100) and `offset` (default 0), failing with "Failed to fetch HCC risks" |
| HccRiskService.UpdateFields | cora-chrome-extension/src/api/HccRiskService.js:61-100 | an update body always has the id key, `status`, `rejection_reason` and `rejection_notes`, null included |
| HccRiskService.UpdateStatusCall | cora-chrome-extension/src/api/HccRiskService.js:51-69 | POST to "/hcc-risk/update-status" with the four fields, failing with "Failed to update HCC risk status" |
| HccRiskService.BulkUpdateStatusCall | cora-chrome-extension/src/api/HccRiskService.js:85-103 | POST to "/hcc-risk/bulk-update-status" with the id list and the same fields, failing with "Failed to bulk update HCC risk status" |
| HccRiskService.PatientBatchesCall | cora-chrome-extension/src/api/HccRiskService.js:118-135 | POST to "/hcc-risk/patient-batches" with `patient_id`, `limit` and `offset`, failing with "Failed to fetch patient batches" |
| HccRiskService.LatestBatchCall | cora-chrome-extension/src/api/HccRiskService.js:148-160 | GET of the latest-batch path for the patient, without a body, failing with "Failed to fetch latest batch" |
| HccRiskService.HccRiskByIdCall | cora-chrome-extension/src/api/HccRiskService.js:173-185 | GET of "/hcc-risk/<id>" without a body, failing with "Failed to fetch HCC risk" |
| HccRiskService.ApproveCall | cora-chrome-extension/src/api/HccRiskService.js:198-200 | approval forwards status "approved" with null reason and null notes |
| HccRiskService.RejectCall | cora-chrome-extension/src/api/HccRiskService.js:209-211 | rejection forwards "rejected" with the reason, and omitted notes become "" |
| HccRiskService.BulkApproveCall | cora-chrome-extension/src/api/HccRiskService.js:218-220 | bulk approval passes the id list through unchanged with "approved" and null reason and notes |
| HccRiskService.BulkRejectCall | cora-chrome-extension/src/api/HccRiskService.js:229-231 | bulk rejection passes the id list through unchanged with "rejected", the reason, and notes defaulting to "" |
| HccRiskService.LatestBatchUrlsDistinct | cora-chrome-extension/src/api/HccRiskService.js:152 | patients whose ids print differently get different latest-batch URLs |
| HccRiskService.NonOkThrowsFixedMessage | cora-chrome-extension/src/api/HccRiskService.js:35 | every non-OK status, 401 included, throws the method's fixed message |
| HccCandidatesService.ListingFields | cora-chrome-extension/src/api/HccCandidatesService.js:28-32 | the listing literal has exactly `patient_id`, `limit` and `offset` |
| HccCandidatesService.PeriodValue | cora-chrome-extension/src/api/HccCandidatesService.js:34-36 | `period` is sent iff it is truthy |
| HccCandidatesService.StatusFilter | cora-chrome-extension/src/api/HccCandidatesService.js:38-40 | `include_status` is sent iff the list is non-empty, and then element by element |
| HccCandidatesService.ByPatientBody | cora-chrome-extension/src/api/HccCandidatesService.js:18-40 | the body always has `patient_id`, `limit` (default 100) and `offset` (default 0), plus `period` only when truthy and `include_status` only when non-empty |
| HccCandidatesService.ListingLookups | cora-chrome-extension/src/api/HccCandidatesService.js:28-40 | the conditional additions read back as added and leave the listing fields alone |
| HccCandidatesService.ByPatientCall | cora-chrome-extension/src/api/HccCandidatesService.js:42-58 | POST to "/hcc-risk-adjustments/by-patient" with that body, failing with `message` or "Failed to fetch HCC candidates" |
| HccCandidatesService.StatusParams | cora-chrome-extension/src/api/HccCandidatesService.js:93-95 | one `include_status=<status>` parameter per status, in order |
| HccCandidatesService.StatusQueryAppend | cora-chrome-extension/src/api/HccCandidatesService.js:93-95 | one more status appends exactly one more separated parameter |
| HccCandidatesService.StatusQueryJoin | cora-chrome-extension/src/api/HccCandidatesService.js:93-95 | the appended query is "&" followed by the parameters joined with "&" |
| HccCandidatesService.ParamHasNoSeparator | cora-chrome-extension/src/api/HccCandidatesService.js:94 | a parameter whose status has no "&" has none either |
| HccCandidatesService.StatusQueryRoundTrip | cora-chrome-extension/src/api/HccCandidatesService.js:92-96 | splitting the appended query at "&" gives back exactly one parameter per status, in order |
| HccCandidatesService.SeparatedParam | cora-chrome-extension/src/api/HccCandidatesService.js:94 | each iteration appends one separated parameter |
| HccCandidatesService.SimpleUrl | cora-chrome-extension/src/api/HccCandidatesService.js:86-96 | the URL is the path with `limit` and `offset`, then `&period=` once when truthy, then the status query |
| HccCandidatesService.AppendStatuses | cora-chrome-extension/src/api/HccCandidatesService.js:92-96 | the `forEach` extends the URL by exactly the status query |
| HccCandidatesService.SimpleCall | cora-chrome-extension/src/api/HccCandidatesService.js:98-111 | a GET to that URL without a body, failing with `message` or "Failed to fetch HCC candidates" |
| HccCandidatesService.StatusChangeBody | cora-chrome-extension/src/api/HccCandidatesService.js:139-150 | the id key and `status`, plus `change_reason` and `notes` only when truthy |
| HccCandidatesService.UpdatesBody | cora-chrome-extension/src/api/HccCandidatesService.js:424-434 | `updates`, plus `change_reason` and `notes` only when truthy, and no `status` |
| HccCandidatesService.ReasonAndNotes | cora-chrome-extension/src/api/HccCandidatesService.js:144-150 | the keys are the old ones, then `change_reason` and `notes`, each only when truthy |
| HccCandidatesService.ReasonAndNotesKeep | cora-chrome-extension/src/api/HccCandidatesService.js:144-150 | the optional additions leave every other field unchanged |
| HccCandidatesService.ReasonAndNotesAdded | cora-chrome-extension/src/api/HccCandidatesService.js:144-150 | `change_reason` and `notes` are present exactly when truthy |
| HccCandidatesService.UpdateStatusCall | cora-chrome-extension/src/api/HccCandidatesService.js:130-165 | POST to ".../update-status" with `candidate_id`, failing with "Failed to update candidate status" |
| HccCandidatesService.BulkUpdateCandidatesCall | cora-chrome-extension/src/api/HccCandidatesService.js:180-215 | POST to ".../bulk-update-status" with `candidate_ids`, failing with "Failed to bulk update candidate status" |
| HccCandidatesService.StatusHistoryCall | cora-chrome-extension/src/api/HccCandidatesService.js:228-244 | GET of ".../status-history/<id>", failing with its fixed message |
| HccCandidatesService.SummaryCall | cora-chrome-extension/src/api/HccCandidatesService.js:258-277 | GET of ".../summary/<id>", with `?period=` only when truthy |
| HccCandidatesService.ApproveCandidateCall | cora-chrome-extension/src/api/HccCandidatesService.js:291-298 | forwards "approved" with the fixed reason "Approved by clinician" and the notes only when truthy |
| HccCandidatesService.RejectCandidateCall | cora-chrome-extension/src/api/HccCandidatesService.js:307-309 | forwards "rejected" with the caller's reason and notes, each only when truthy |
| HccCandidatesService.BulkApproveCall | cora-chrome-extension/src/api/HccCandidatesService.js:317-324 | forwards "approved" with "Bulk approved by clinician" and the id list unchanged |
| HccCandidatesService.BulkRejectCall | cora-chrome-extension/src/api/HccCandidatesService.js:333-340 | forwards "rejected" with the caller's reason and the id list unchanged |
| HccCandidatesService.ItemId | cora-chrome-extension/src/api/HccCandidatesService.js:419-420 | the id is `item_id`, else `risk_adjustment_id`, else `candidate_id` |
| HccCandidatesService.TransformedUpdate | cora-chrome-extension/src/api/HccCandidatesService.js:418-422 | a non-null update becomes `{item_id, status}` with `item_id` taken from `item_id`, `risk_adjustment_id` or `candidate_id`; a `null` update throws the TypeError for `item_id` |
| HccCandidatesService.TransformedUpdates | cora-chrome-extension/src/api/HccCandidatesService.js:418-422 | the mapping throws iff some update is `null`; otherwise it keeps the length and the order |
| HccCandidatesService.BulkUpdateStatusCall | cora-chrome-extension/src/api/HccCandidatesService.js:424-446 | POST to ".../bulk-update-status" with the transformed updates |
| HccCandidatesService.BulkUpdateStatus | cora-chrome-extension/src/api/HccCandidatesService.js:413-454 | the method's result and new browser state are those of `BulkUpdateStatusOutcome`: the token is read, a failed transformation is rethrown before any fetch, otherwise the request is sent and settled |
| HccCandidatesService.BulkUpdateFailsOnNull | cora-chrome-extension/src/api/HccCandidatesService.js:413-454 | a `null` update makes the call throw the `item_id` TypeError with nothing sent, and only then; without one exactly the request with the transformed updates is sent |
| HccCandidatesService.AllStatusesCall | cora-chrome-extension/src/api/HccCandidatesService.js:465-500 | POST to ".../by-patient-all-statuses" with `limit` defaulting to 1000 and `period` only when truthy |
| HccCandidatesService.CalculateEvidenceStrength | cora-chrome-extension/src/api/HccCandidatesService.js:390-404 | throws iff the evidences are present, not of length 0, and either not an array (`some` is not a function) or a `null` item is reached before a match in one of the two scans; otherwise "strong" iff some level is exactly "strong" or "high", "moderate" iff none is and some is "moderate" or "medium", else "low" |
| HccCandidatesService.NoEvidenceIsLow | cora-chrome-extension/src/api/HccCandidatesService.js:391 | no evidences, `null`, or an empty list is "low" |
| HccCandidatesService.SomeLevel | cora-chrome-extension/src/api/HccCandidatesService.js:393-399 | `some` throws iff a `null` item is reached before the first match, reading `confidence_level`; otherwise it holds iff some item matches |
| HccCandidatesService.ShapedEvidenceIsRated | cora-chrome-extension/src/api/HccCandidatesService.js:390-404 | evidences that are absent, of length 0, or an array of objects always get a rating |
| HccCandidatesService.NullAfterStrongThrows | cora-chrome-extension/src/api/HccCandidatesService.js:393-399 | `[{confidence_level: "strong"}, null]` throws: the second scan reaches the `null` |
| HccCandidatesService.LegacyEntryOf | cora-chrome-extension/src/api/HccCandidatesService.js:356-377 | a group converts unless it is `null` (reading `hcc_code`) or its strength throws, and then with that error |
| HccCandidatesService.ShapedGroupConverts | cora-chrome-extension/src/api/HccCandidatesService.js:356-377 | a non-null group whose evidences have the shape above always converts |
| HccCandidatesService.TransformToLegacyFormat | cora-chrome-extension/src/api/HccCandidatesService.js:348-383 | no entries when the response or its `hcc_groups` is falsy; a TypeError when `hcc_groups` is not an array; otherwise one legacy entry per group in order, or the first group's error, with two clock readings per group |
| HccCandidatesService.PushEntries | cora-chrome-extension/src/api/HccCandidatesService.js:353-380 | the loop succeeds iff every group converts, then pushes exactly the legacy entry of each group in order; otherwise it stops with the first failing group's error |
| HccCandidatesService.LegacyEntryOfGroup | cora-chrome-extension/src/api/HccCandidatesService.js:357-377 | id "hcc-" + code, status defaulting to "pending", type to "suspect", the computed strength, `icd_code` empty or built from the first evidence, and the two timestamps read for this group |
| PatientApi.LimitValue | cora-chrome-extension/src/api/patient.js:15-17 | `limit` is sent iff `pageSize` is truthy, and then equals it |
| PatientApi.SkipValue | cora-chrome-extension/src/api/patient.js:19-21 | `skip` is sent iff `page` is truthy, and then equals `page - 1` |
| PatientApi.ExactSearchValue | cora-chrome-extension/src/api/patient.js:29-35 | `exact_search` is sent iff a name part is truthy, and then is the three parts with "" for falsy ones |
| PatientApi.ListBody | cora-chrome-extension/src/api/patient.js:12-35 | the body has exactly the conditionally assigned keys, in order, each with its value |
| PatientApi.ListFieldsLookup | cora-chrome-extension/src/api/patient.js:12-35 | each key reads back the value assigned to it |
| PatientApi.ListFieldsKeys | cora-chrome-extension/src/api/patient.js:12-35 | the keys appear in assignment order, each only when assigned |
| PatientApi.ListOptions | cora-chrome-extension/src/api/patient.js:38-44 | POST with `Content-Type: application/json` and the body |
| PatientApi.DetailOptions | cora-chrome-extension/src/api/patient.js:67-72 | GET with `Accept: application/json` and no body |
| PatientApi.Settle | cora-chrome-extension/src/api/patient.js:47-86 | every failure is rethrown with the call's prefix; an OK response yields its parsed body |
| PatientApi.FetchPatients | cora-chrome-extension/src/api/patient.js:6-60 | the result and the new browser state are those of `FetchPatientsFlow` |
| PatientApi.GetPatientById | cora-chrome-extension/src/api/patient.js:62-88 | the result and the new browser state are those of `GetPatientByIdFlow` |
| PatientApi.LimitIffPageSize | cora-chrome-extension/src/api/patient.js:15-17 | `limit` is present iff `pageSize` is truthy, and then equals it |
| PatientApi.SkipIsZeroBased | cora-chrome-extension/src/api/patient.js:19-21 | page 1 sends skip 0; page 0 and no page send no skip |
| PatientApi.ExactMatchBodyOnly | cora-chrome-extension/src/api/patient.js:15-35 | with no page, size or query, only `exact_search` is sent |
| PatientApi.NonOkPrefixedTwice | cora-chrome-extension/src/api/patient.js:47-59 | a non-OK response reaches the caller with the prefix twice |
| PatientApi.EveryFailurePrefixed | cora-chrome-extension/src/api/patient.js:56-87 | every failure's message starts with the call's prefix |
| PatientApi.NetworkFailureMessage | cora-chrome-extension/src/api/patient.js:47-50 | an unreachable backend surfaces as the doubled prefix with status 500 |
| PatientApi.ListRequestSent | cora-chrome-extension/src/api/patient.js:38-44 | `fetchPatients` POSTs its body to "/patients/list" as its first request |
| PatientApi.DetailRequestSent | cora-chrome-extension/src/api/patient.js:67-72 | `getPatientById` GETs "/patients/retrieve/" + id as its first request |
| ApiConfig.PathOf | cora-chrome-extension/src/api/ApiConfig.js:27 | an entry that starts with "/" gives a path that begins with "/" for any arguments |
| ApiConfig.AuthRoute | cora-chrome-extension/src/api/ApiConfig.js:15-21 | every `AUTH_ENDPOINTS` entry starts with "/" and has a "/" before every argument slot and a "/" or the end of the path after it |
| ApiConfig.AdminOrganizationsRoute | cora-chrome-extension/src/api/ApiConfig.js:25-55 | every `ORGANIZATIONS` entry starts with "/" and has a "/" before every argument slot and a "/" or the end of the path after it |
| ApiConfig.AdminAccountsRoute | cora-chrome-extension/src/api/ApiConfig.js:56-71 | every `ACCOUNTS` entry starts with "/" and has a "/" before every argument slot and a "/" or the end of the path after it |
| ApiConfig.AdminUsersRoute | cora-chrome-extension/src/api/ApiConfig.js:72-88 | every `USERS` entry starts with "/" and has a "/" before every argument slot and a "/" or the end of the path after it |
| ApiConfig.AdminInvitesRoute | cora-chrome-extension/src/api/ApiConfig.js:89-94 | every `INVITES` entry starts with "/" and has a "/" before every argument slot and a "/" or the end of the path after it |
| ApiConfig.AdminSuspectEvidencesRoute | cora-chrome-extension/src/api/ApiConfig.js:95-104 | every `SUSPECT_EVIDENCES` entry starts with "/" and has a "/" before every argument slot and a "/" or the end of the path after it |
| ApiConfig.AdminPayorsRoute | cora-chrome-extension/src/api/ApiConfig.js:105-111 | every `PAYORS` entry starts with "/" and has a "/" before every argument slot and a "/" or the end of the path after it |
| ApiConfig.AdminProvidersRoute | cora-chrome-extension/src/api/ApiConfig.js:112-118 | every `PROVIDERS` entry starts with "/" and has a "/" before every argument slot and a "/" or the end of the path after it |
| ApiConfig.AdminEmrIntegrationMappingsRoute | cora-chrome-extension/src/api/ApiConfig.js:119-125 | every `EMR_INTEGRATION_MAPPINGS` entry starts with "/" and has a "/" before every argument slot and a "/" or the end of the path after it |
| ApiConfig.AdminFilesRoute | cora-chrome-extension/src/api/ApiConfig.js:126-129 | every `FILES` entry starts with "/" and has a "/" before every argument slot and a "/" or the end of the path after it |
| ApiConfig.AdminSystemRoute | cora-chrome-extension/src/api/ApiConfig.js:130-133 | every `SYSTEM` entry starts with "/" and has a "/" before every argument slot and a "/" or the end of the path after it |
| ApiConfig.AdminRoute | cora-chrome-extension/src/api/ApiConfig.js:24-134 | every `ADMIN_ENDPOINTS` entry starts with "/" and has a "/" before every argument slot and a "/" or the end of the path after it |
| ApiConfig.PatientAuthRoute | cora-chrome-extension/src/api/ApiConfig.js:138-140 | the patient-service login path starts with "/" |
| ApiConfig.PatientPatientsRoute | cora-chrome-extension/src/api/ApiConfig.js:141-196 | every `PATIENTS` entry starts with "/" and has a "/" before every argument slot and a "/" or the end of the path after it |
| ApiConfig.PatientHccEvidencesRoute | cora-chrome-extension/src/api/ApiConfig.js:198-207 | every `HCC_EVIDENCES` entry starts with "/" and has a "/" before every argument slot and a "/" or the end of the path after it |
| ApiConfig.PatientHccRiskRoute | cora-chrome-extension/src/api/ApiConfig.js:209-216 | every `HCC_RISK` entry starts with "/" and has a "/" before every argument slot and a "/" or the end of the path after it |
| ApiConfig.PatientScheduleRoute | cora-chrome-extension/src/api/ApiConfig.js:217-220 | every `SCHEDULE` entry starts with "/" and has a "/" before every argument slot and a "/" or the end of the path after it |
| ApiConfig.PatientInsuranceRoute | cora-chrome-extension/src/api/ApiConfig.js:221-223 | the insurance path starts with "/" |
| ApiConfig.PatientRoute | cora-chrome-extension/src/api/ApiConfig.js:137-225 | every `PATIENT_ENDPOINTS` entry starts with "/" and has a "/" before every argument slot and a "/" or the end of the path after it |
| ApiConfig.ConfiguratorConfiguratorRoute | cora-chrome-extension/src/api/ApiConfig.js:228-230 | the configurator path starts with "/" |
| ApiConfig.ConfiguratorRoute | cora-chrome-extension/src/api/ApiConfig.js:227-231 | every `CONFIGURATOR_ENDPOINTS` entry starts with "/" and has a "/" before every argument slot and a "/" or the end of the path after it |
| ApiConfig.RouteOf | cora-chrome-extension/src/api/ApiConfig.js:15-231 | every entry of every table starts with "/" and has a "/" before every argument slot and a "/" or the end of the path after it |
| ApiConfig.EveryPathIsAbsolute | cora-chrome-extension/src/api/ApiConfig.js:15-231 | every constant and every builder result begins with "/" |
| ApiConfig.OneArgumentInjective | cora-chrome-extension/src/api/ApiConfig.js:214-215 | a one-argument builder gives distinct paths for distinct arguments |
| ApiConfig.TwoArgumentsInOrder | cora-chrome-extension/src/api/ApiConfig.js:41-69 | a two-argument builder places its slash-free first argument before the second, so equal paths mean equal arguments |
| ApiConfig.FirstSlash | cora-chrome-extension/src/api/ApiConfig.js:41-42 | the position of the first "/", with no "/" before it |
| ApiConfig.FirstSlashAfter | cora-chrome-extension/src/api/ApiConfig.js:41-42 | in a slash-free argument followed by "/", the first "/" ends the argument |
| ApiConfig.SlashFreePrefix | cora-chrome-extension/src/api/ApiConfig.js:41-42 | two slash-free arguments followed by "/..." agree when the strings do |
| ApiConfig.ConfiguratorPlaceholderIsLiteral | cora-chrome-extension/src/api/ApiConfig.js:229 | the `{patient_id}` placeholder stays literal text, because the entry is a plain string |
| ApiConfig.BodyError | cora-chrome-extension/src/api/ApiConfig.js:238-241 | the error the inner `try` builds: a TypeError on a `null` body, `String(detail)` when `detail` is truthy, else `String(message)` when truthy, else "API request failed" |
| ApiConfig.HandleApiResponse | cora-chrome-extension/src/api/ApiConfig.js:234-248 | an OK response yields its parsed body |
| ApiConfig.NonOkMessage | cora-chrome-extension/src/api/ApiConfig.js:235-245 | every non-OK response throws "API request failed: " followed by the body text when it is non-empty and by the status text when it is empty |
| ApiConfig.NonOkMessageIgnoresParsedBody | cora-chrome-extension/src/api/ApiConfig.js:235-245 | as written, non-OK responses with the same text and status text throw the same error, whatever their parsed body says, and the message starts with "API request failed: " |
| ApiConfig.DetailIsDiscarded | cora-chrome-extension/src/api/ApiConfig.js:237-244 | on a 404 with body `{"detail": "Patient not found"}`, the code as written throws "API request failed: " followed by the raw body text |
| ApiConfig.HandleApiResponseIntended | cora-chrome-extension/src/api/ApiConfig.js:234-248 | a non-OK JSON body surfaces `String(detail)` when truthy, else `String(message)` or "API request failed"; an unparsable one throws as written; an OK response yields its parsed body |
| ApiConfig.DetailIsReported | cora-chrome-extension/src/api/ApiConfig.js:237-241 | on the same 404, the intended reading throws "Patient not found" |
| ApiConfig.ReadingsAgreeOnOk | cora-chrome-extension/src/api/ApiConfig.js:247 | on OK responses both readings give the parsed body |
| ExtractPatientData.TakeUntilStop | cora-chrome-extension/src/components/app/ExtractPatientData.jsx:212 | `[^\(📁]*` takes the longest prefix without a stopping character |
| ExtractPatientData.DobCapture | cora-chrome-extension/src/components/app/ExtractPatientData.jsx:212-213 | the regular expression matches iff the text contains 🎂 |
| ExtractPatientData.NameParts | cora-chrome-extension/src/components/app/ExtractPatientData.jsx:198-208 | with a comma: the trimmed first and second comma-separated parts; without one: the whole name and "" |
| ExtractPatientData.Extract | cora-chrome-extension/src/components/app/ExtractPatientData.jsx:188-231 | the name is the trimmed text before 🎂, or the sentinel; a missing span gives the details sentinel; the DOB is never empty |
| ExtractPatientData.ExtractRendered | cora-chrome-extension/src/components/app/ExtractPatientData.jsx:188-223 | extracting from "LAST, First 🎂 Mon D, YYYY (age" gives back the name, both name parts and the date |
| ExtractPatientData.RenderedNamePiece | cora-chrome-extension/src/components/app/ExtractPatientData.jsx:192 | the text before the first 🎂 is "LAST, First " |
| ExtractPatientData.RenderedName | cora-chrome-extension/src/components/app/ExtractPatientData.jsx:192 | the text before 🎂 trims to "LAST, First" |
| ExtractPatientData.RenderedNameParts | cora-chrome-extension/src/components/app/ExtractPatientData.jsx:200-203 | "LAST, First" splits back into its two names |
| ExtractPatientData.RenderedDob | cora-chrome-extension/src/components/app/ExtractPatientData.jsx:212-215 | the capture after 🎂 is the date and the space before "(" |
| ExtractPatientData.FirstPiece | cora-chrome-extension/src/components/app/ExtractPatientData.jsx:192 | the first piece of a split ends at the first separator |
| ExtractPatientData.TrimExact | cora-chrome-extension/src/components/app/ExtractPatientData.jsx:192 | trimming removes exactly the surrounding whitespace |
| ExtractPatientData.TrimStartSkips | cora-chrome-extension/src/components/app/ExtractPatientData.jsx:212 | leading whitespace before a non-space is skipped |
| ExtractPatientData.TakeUntilStopExact | cora-chrome-extension/src/components/app/ExtractPatientData.jsx:212 | the capture ends at the first stopping character |
| ExtractPatientData.DaysInMonth | cora-chrome-extension/src/components/app/ExtractPatientData.jsx:89 | a month of the proleptic Gregorian calendar has 28 to 31 days |
| ExtractPatientData.MakeDate | cora-chrome-extension/src/components/app/ExtractPatientData.jsx:89-94 | `new Date(y, m, d)` read back is always a valid date, and is the same date when that date is valid |
| ExtractPatientData.FullYear | cora-chrome-extension/src/components/app/ExtractPatientData.jsx:89 | years 0 to 99 become 1900 to 1999; other years are kept |
| ExtractPatientData.MonthOf | cora-chrome-extension/src/components/app/ExtractPatientData.jsx:72-87 | a month index iff the name is one of the twelve abbreviations, and that abbreviation's index; an `Object.prototype` member name reads as an inherited value |
| ExtractPatientData.RemoveFirstComma | cora-chrome-extension/src/components/app/ExtractPatientData.jsx:68 | a string without a comma is unchanged |
| ExtractPatientData.FormattedDate | cora-chrome-extension/src/components/app/ExtractPatientData.jsx:60-66 | the empty date, the sentinel and fewer than three parts all give "" |
| ExtractPatientData.ConvertDob | cora-chrome-extension/src/components/app/ExtractPatientData.jsx:60-105 | the nested conversion computes `FormattedDate`: "" unless the date has three parts, a known month and numeric day and year; "NaN-NaN-NaN" for an inherited month name, a year outside V8's ±1,000,000, or a date beyond the time-value range |
| ExtractPatientData.WrittenParts | cora-chrome-extension/src/components/app/ExtractPatientData.jsx:64-69 | "Mon D, YYYY" splits into the month name, "D," and the year |
| ExtractPatientData.SplitThree | cora-chrome-extension/src/components/app/ExtractPatientData.jsx:64 | three separator-free pieces joined by the separator split back into those pieces |
| ExtractPatientData.WrittenDate | cora-chrome-extension/src/components/app/ExtractPatientData.jsx:62-96 | every written date goes through `new Date(year, month - 1, day)` and is printed as YYYY-MM-DD, or as "NaN-NaN-NaN" when the year is outside V8's ±1,000,000 or the date is beyond the time-value range |
| ExtractPatientData.YearBeyondEngineIsInvalid | cora-chrome-extension/src/components/app/ExtractPatientData.jsx:89 | a written year outside ±1,000,000 gives "NaN-NaN-NaN" for every month and day |
| ExtractPatientData.NegativeDayKeepsYearInvalid | cora-chrome-extension/src/components/app/ExtractPatientData.jsx:89 | "Jan -364512380, 1000001" gives "NaN-NaN-NaN": the day count does not rescue a refused year |
| ExtractPatientData.MonthOfName | cora-chrome-extension/src/components/app/ExtractPatientData.jsx:72-85 | each month name maps back to its 0-based index |
| ExtractPatientData.DayParses | cora-chrome-extension/src/components/app/ExtractPatientData.jsx:68 | "D," with the comma removed parses back to D |
| ExtractPatientData.FormatsValidDate | cora-chrome-extension/src/components/app/ExtractPatientData.jsx:62-96 | a valid date with a year from 100 to 275759 formats to its zero-padded YYYY-MM-DD |
| ExtractPatientData.TwoDigitYear | cora-chrome-extension/src/components/app/ExtractPatientData.jsx:89 | a two-digit year is read as 19xx |
| ExtractPatientData.CaptureAfterFirstCake | cora-chrome-extension/src/components/app/ExtractPatientData.jsx:212-213 | the capture is what follows the first 🎂 and its white space, up to the first stopping character |
| ExtractPatientData.DateString | cora-chrome-extension/src/components/app/ExtractPatientData.jsx:89-96 | a representable date prints in ISO form and any other as "NaN-NaN-NaN" |
| ExtractPatientData.EpochIsDayZero | cora-chrome-extension/src/components/app/ExtractPatientData.jsx:89 | 1 January 1970 is day 0 of the time value |
| ExtractPatientData.LastDay | cora-chrome-extension/src/components/app/ExtractPatientData.jsx:89 | 13 September 275760 is day 100,000,000, the last representable day |
| ExtractPatientData.FirstDay | cora-chrome-extension/src/components/app/ExtractPatientData.jsx:89 | 20 April -271821 is day -100,000,000, the first representable day |
| ExtractPatientData.YearsInRange | cora-chrome-extension/src/components/app/ExtractPatientData.jsx:89 | every valid date from the year 100 to the year 275759 is representable |
| ExtractPatientData.FarFutureIsInvalid | cora-chrome-extension/src/components/app/ExtractPatientData.jsx:89-96 | "Jan 1, 300000" converts to "NaN-NaN-NaN" |
| ExtractPatientData.MonthNamesDistinct | cora-chrome-extension/src/components/app/ExtractPatientData.jsx:72-85 | the twelve month names are distinct |
| ExtractPatientData.NoSpaceInNumber | cora-chrome-extension/src/components/app/ExtractPatientData.jsx:64 | a rendered number holds no space and no comma |
| ExtractPatientData.RemoveTrailingComma | cora-chrome-extension/src/components/app/ExtractPatientData.jsx:68 | removing the first comma of "D," gives "D" |
| ExtractPatientData.NoDateWithoutParts | cora-chrome-extension/src/components/app/ExtractPatientData.jsx:66-87 | an unknown month or a NaN day or year leaves the date "" |
| ExtractPatientData.FirstId | cora-chrome-extension/src/components/app/ExtractPatientData.jsx:131 | the selected id is `patients[0].id`, a TypeError when that patient is null |
| ExtractPatientData.Classify | cora-chrome-extension/src/components/app/ExtractPatientData.jsx:122-146 | a failure is reported as such; a selection needs a total of exactly the number 1; the "multiple" message iff `total > 1` holds with JavaScript's number conversion (so "3" and `[3]` count); the "none" message iff total is exactly the number 0; otherwise nothing changes |
| ExtractPatientData.OneMatchSelects | cora-chrome-extension/src/components/app/ExtractPatientData.jsx:125-133 | total 1 with exactly one patient selects that patient's id |
| ExtractPatientData.CountedOutcomes | cora-chrome-extension/src/components/app/ExtractPatientData.jsx:134-141 | a total that converts to a number above 1 asks to refine the search; a total of exactly the number 0 says there is no match |
| ExtractPatientData.TextTotalCounts | cora-chrome-extension/src/components/app/ExtractPatientData.jsx:134 | a total of "3" or `[3]` compares like the number 3: it asks to refine the search |
| ExtractPatientData.OneWithoutPatientIgnored | cora-chrome-extension/src/components/app/ExtractPatientData.jsx:125-141 | total 1 with an empty patient list changes nothing |
| ExtractPatientData.ExactSearchOnly | cora-chrome-extension/src/components/app/ExtractPatientData.jsx:114-121 | the exact-match call sends only `exact_search`: the names and the converted date |
| ExtractPatientData.Panel.constructor | cora-chrome-extension/src/components/app/ExtractPatientData.jsx:49-55 | the initial state: a null patient id, empty details and no error |
| ExtractPatientData.Panel.ReadIdentifier | cora-chrome-extension/src/components/app/ExtractPatientData.jsx:188-232 | the stored details are `Extract` of the span's text, and nothing else changes |
| ExtractPatientData.Panel.FindExactMatch | cora-chrome-extension/src/components/app/ExtractPatientData.jsx:57-151 | the request and the outcome are those of `ExactMatchFlow`: a selection sets the id; the messages and "Failed to find exact match: " + message set the error |
| PatientDetail.CardOf | cora-chrome-extension/src/components/app/PatientDetail.jsx:70-86 | every field is copied; status defaults to "pending" and strength to "low", so both are truthy |
| PatientDetail.CardsOf | cora-chrome-extension/src/components/app/PatientDetail.jsx:70 | one card per risk, in order; a null risk throws the TypeError of reading `id` |
| PatientDetail.Rank | cora-chrome-extension/src/components/app/PatientDetail.jsx:90-102 | no rank (the `??` sees an inherited function) iff the strength's string form names an `Object.prototype` member; otherwise strong 0, moderate 1, low 2, anything else 3 |
| PatientDetail.CompareByKey | cora-chrome-extension/src/components/app/PatientDetail.jsx:91-104 | the comparator is NaN only for two cards of the same class one of which has no rank; otherwise its sign orders cards exactly as rejected-last, then by rank |
| PatientDetail.CardLeIsTotalPreorder | cora-chrome-extension/src/components/app/PatientDetail.jsx:91-104 | the order the comparator induces on ranked cards is total and transitive |
| PatientDetail.SortCards | cora-chrome-extension/src/components/app/PatientDetail.jsx:91-104 | a permutation; when every card has a rank, every non-rejected card precedes every rejected one, ranks do not decrease within a class, and cards that compare equal keep their order |
| PatientDetail.SortKeepsCards | cora-chrome-extension/src/components/app/PatientDetail.jsx:91-104 | sorting keeps exactly the same cards |
| PatientDetail.SortedCardsRanked | cora-chrome-extension/src/components/app/PatientDetail.jsx:91-104 | sorting ranked cards gives ranked cards, and cards that compare equal keep their order |
| PatientDetail.CardActions | cora-chrome-extension/src/components/app/PatientDetail.jsx:74 | a card offers Accept and Reject iff its status is "pending" or "active"; a risk without a status counts as "pending" |
| PatientDetail.ApplyRisks | cora-chrome-extension/src/components/app/PatientDetail.jsx:68-120 | the batch is kept; an answer without `hcc_risks` empties the cards |
| PatientDetail.View.constructor | cora-chrome-extension/src/components/app/PatientDetail.jsx:13-19 | the initial state: no patient, loading, no cards, no batch, no error |
| PatientDetail.View.FetchPatientDetails | cora-chrome-extension/src/components/app/PatientDetail.jsx:21-35 | the patient on success, a toast on failure; loading ends |
| PatientDetail.View.FetchHccRisks | cora-chrome-extension/src/components/app/PatientDetail.jsx:37-128 | the cards, the batch, the error and the browser state are those of `FetchHccRisksFlow` |
| PatientDetail.View.UseLatestBatch | cora-chrome-extension/src/components/app/PatientDetail.jsx:45-60 | no batch empties the cards; a batch is stored and its risks are loaded |
| PatientDetail.View.LoadBatch | cora-chrome-extension/src/components/app/PatientDetail.jsx:55-120 | the risks request and its effect are those of `BatchFlow` |
| PatientDetail.NoBatchMeansEmpty | cora-chrome-extension/src/components/app/PatientDetail.jsx:45-49 | an answer without `latest_batch_id` gives no cards, a null batch, no error, and no second request |
| PatientDetail.RisksRequestForBatch | cora-chrome-extension/src/components/app/PatientDetail.jsx:51-60 | with a batch, the second request asks for that batch's risks with limit 100 and offset 0 |
| PatientDetail.RisksBecomeSortedCards | cora-chrome-extension/src/components/app/PatientDetail.jsx:68-120 | loaded risks become the sorted cards; an answer without risks empties the list |
| PatientDetail.FailureKeepsCards | cora-chrome-extension/src/components/app/PatientDetail.jsx:123-124 | a transform that throws keeps the cards and shows the TypeError's message |
| SuspectedCodes.GroupLeIsTotalPreorder | cora-chrome-extension/src/components/app/clinicalNote/SuspectedCodes.jsx:58-65 | with a consistent locale order, the group comparator is consistent |
| SuspectedCodes.SortGroups | cora-chrome-extension/src/components/app/clinicalNote/SuspectedCodes.jsx:58-65 | throws iff two or more groups include a `null` one (reading `type`), or a group without a code meets another of its class; otherwise a permutation with every non-gap group before every gap, codes in locale order within a class, and groups that compare equal in their original order |
| SuspectedCodes.FirstClash | cora-chrome-extension/src/components/app/clinicalNote/SuspectedCodes.jsx:58-65 | the first group from a position on whose `hcc_code` the comparator reads without a string code |
| SuspectedCodes.SortGroupsOk | cora-chrome-extension/src/components/app/clinicalNote/SuspectedCodes.jsx:58-65 | without a `null` group or a clash, the sort is the stable sort by class and locale order |
| SuspectedCodes.LoneCodelessGroupSorts | cora-chrome-extension/src/components/app/clinicalNote/SuspectedCodes.jsx:58-65 | a codeless suspect alongside one gap sorts without reading its code, and comes first |
| SuspectedCodes.EvidenceIdsMembers | cora-chrome-extension/src/components/app/clinicalNote/SuspectedCodes.jsx:72-79 | an id is collected iff some evidence with status "approved", "accepted" or "candidate" carries it |
| SuspectedCodes.ListFailure | cora-chrome-extension/src/components/app/clinicalNote/SuspectedCodes.jsx:72 | the inner loop can start iff the group is non-null and has an evidence array |
| SuspectedCodes.AddIds | cora-chrome-extension/src/components/app/clinicalNote/SuspectedCodes.jsx:72-80 | the inner loop adds exactly the checked ids, or throws at a null evidence |
| SuspectedCodes.CollectIdsSucceeds | cora-chrome-extension/src/components/app/clinicalNote/SuspectedCodes.jsx:71-81 | collection succeeds iff every group has an evidence list without null items |
| SuspectedCodes.CollectIdsMembers | cora-chrome-extension/src/components/app/clinicalNote/SuspectedCodes.jsx:70-82 | the set is exactly the ids of the checked evidences across all groups |
| SuspectedCodes.CollectCheckedIds | cora-chrome-extension/src/components/app/clinicalNote/SuspectedCodes.jsx:70-81 | the nested loop computes `CollectIds` |
| SuspectedCodes.AddEvidenceIds | cora-chrome-extension/src/components/app/clinicalNote/SuspectedCodes.jsx:72-80 | the inner loop computes `AddIds` |
| SuspectedCodes.CollectIdsStops | cora-chrome-extension/src/components/app/clinicalNote/SuspectedCodes.jsx:71-81 | the first failing group decides the error |
| SuspectedCodes.Fail | cora-chrome-extension/src/components/app/clinicalNote/SuspectedCodes.jsx:89-95 | a failure empties the list; the toast is added unless the message contains "Failed to fetch HCC candidates" |
| SuspectedCodes.Panel.constructor | cora-chrome-extension/src/components/app/clinicalNote/SuspectedCodes.jsx:21-24 | the initial state: no groups, empty sets, not loading |
| SuspectedCodes.Panel.FetchHccRisks | cora-chrome-extension/src/components/app/clinicalNote/SuspectedCodes.jsx:30-99 | the state and the browser state are those of `FetchFlow`, and loading ends |
| SuspectedCodes.Panel.Handle | cora-chrome-extension/src/components/app/clinicalNote/SuspectedCodes.jsx:53-95 | the state is `Settle` of the answer |
| SuspectedCodes.Panel.Load | cora-chrome-extension/src/components/app/clinicalNote/SuspectedCodes.jsx:53-88 | the state is `Apply` of the answer |
| SuspectedCodes.Panel.Catch | cora-chrome-extension/src/components/app/clinicalNote/SuspectedCodes.jsx:89-95 | the state is `Fail` of the error |
| SuspectedCodes.RequestedStatuses | cora-chrome-extension/src/components/app/clinicalNote/SuspectedCodes.jsx:39-49 | the request asks for this year's "pending", "candidate" and "rejected" groups, limit 100, offset 0 |
| SuspectedCodes.StatusesRequested | cora-chrome-extension/src/components/app/clinicalNote/SuspectedCodes.jsx:40 | the status filter sent is the list "pending", "candidate", "rejected" |
| SuspectedCodes.LoadedPanel | cora-chrome-extension/src/components/app/clinicalNote/SuspectedCodes.jsx:53-85 | a loaded answer shows the sorted groups, pre-checks exactly the checked evidence ids, and resets the collapsed cards |
| SuspectedCodes.NoGroupsEmpties | cora-chrome-extension/src/components/app/clinicalNote/SuspectedCodes.jsx:86-88 | an answer without groups empties the list and keeps the rest |
| SuspectedCodes.FailureEmpties | cora-chrome-extension/src/components/app/clinicalNote/SuspectedCodes.jsx:89-95 | every failed call empties the list, with the toast unless the message contains the quiet text |
| SuspectedCodes.SilentWhenBackendSaysNothing | cora-chrome-extension/src/components/app/clinicalNote/SuspectedCodes.jsx:92 | a non-OK answer whose `message` is absent or falsy fails silently, because the service's fallback contains the quiet text |
| HccCard.StatusColor | cora-chrome-extension/src/components/app/HccCard.jsx:43-53 | green iff "approved", red iff "rejected", amber otherwise |
| HccCard.StatusText | cora-chrome-extension/src/components/app/HccCard.jsx:60-72 | "Accepted" iff "approved", "Rejected" iff "rejected", "Pending" otherwise |
| HccCard.BadgeAgrees | cora-chrome-extension/src/components/app/HccCard.jsx:43-72 | the badge colour and text always agree |
| HccCard.StyleOfLabel | cora-chrome-extension/src/components/app/HccCard.jsx:80-104 | Strong iff strong/high, Moderate iff moderate/medium/mid, Low otherwise |
| HccCard.EvidenceStrengthStyle | cora-chrome-extension/src/components/app/HccCard.jsx:79-105 | a missing strength is Low; a string is matched lower-cased; a non-string value throws a TypeError |
| HccCard.StrengthStyleIgnoresCase | cora-chrome-extension/src/components/app/HccCard.jsx:80 | the strength badge ignores letter case |
| HccCard.ToLowerIdempotent | cora-chrome-extension/src/components/app/HccCard.jsx:80 | lower-casing twice is lower-casing once |
| HccCard.ComputedStrengthDisplayed | cora-chrome-extension/src/api/HccCandidatesService.js:390-404 | every level `calculateEvidenceStrength` returns is shown with that level's text |
| HccCard.LevelDisplayed | cora-chrome-extension/src/components/app/HccCard.jsx:80-87 | each of the three lower-case levels is shown with its own style |
| HccCard.LowerOfLowercase | cora-chrome-extension/src/components/app/HccCard.jsx:80 | lower-casing leaves a lower-case string unchanged |
| HccCard.ItemBadgeAgreesWithService | cora-chrome-extension/src/components/app/HccCard.jsx:219-231 | an evidence item the service counts as strong or moderate gets that badge |
| HccCard.CaseSensitivityGap | cora-chrome-extension/src/components/app/HccCard.jsx:80-87 | an item with level "High" shows Strong, but the service rates it "low" |
| HccCard.ParseEvidences | cora-chrome-extension/src/components/app/HccCard.jsx:26-34 | `[]` when `hcc_evidence` is falsy or does not parse, otherwise the parsed value |
| HccCard.LegacyEvidenceRoundTrip | cora-chrome-extension/src/components/app/HccCard.jsx:26-34 | the evidence list a converted legacy entry stringifies parses back to the group's evidences, or to `[]` when it has none |
| HccCard.ActionsOnlyOnPending | cora-chrome-extension/src/components/app/HccCard.jsx:240-242 | the actions are offered only on a card whose badge reads "Pending" in amber |
| HccCard.PendingWithoutActions | cora-chrome-extension/src/components/app/HccCard.jsx:60-72 | a "candidate" card reads "Pending" but offers no actions |
| HccCard.ConfirmedRejectionHasReason | cora-chrome-extension/src/components/app/HccCard.jsx:107-114 | a confirmed rejection always sends a non-empty reason |
| Numbers.CeilDiv | cora-chrome-extension/src/components/app/PatientSearch.jsx:35 | `Math.ceil(n / d)` is the least q with n <= q * d |
| PatientSearch.TotalPages | cora-chrome-extension/src/components/app/PatientSearch.jsx:35 | `Math.ceil(total / 50)` of the total converted to a number: the least integer whose multiple of 50 reaches a finite total; an infinity or NaN stays as it is |
| PatientSearch.ApplyAnswer | cora-chrome-extension/src/components/app/PatientSearch.jsx:24-30 | success moves to the requested page with `patients or []` and `total or 0`; failure keeps the page and sets the error |
| PatientSearch.SearchView.constructor | cora-chrome-extension/src/components/app/PatientSearch.jsx:11-18 | the initial state: empty query, no patients, page 1, total 0 |
| PatientSearch.SearchView.SetQuery | cora-chrome-extension/src/components/app/PatientSearch.jsx:62 | only the query changes |
| PatientSearch.SearchView.HandleSearch | cora-chrome-extension/src/components/app/PatientSearch.jsx:20-33 | the state and browser state are those of `SearchFlow`, and loading ends |
| PatientSearch.SearchView.Answer | cora-chrome-extension/src/components/app/PatientSearch.jsx:25-29 | the state is `ApplyAnswer` of the answer |
| PatientSearch.SearchView.NewSearch | cora-chrome-extension/src/components/app/PatientSearch.jsx:63-69 | the Search button and Enter search page 1 |
| PatientSearch.SearchView.HandleNextPage | cora-chrome-extension/src/components/app/PatientSearch.jsx:37-41 | the effect is the Next step |
| PatientSearch.SearchView.HandlePrevPage | cora-chrome-extension/src/components/app/PatientSearch.jsx:43-47 | the effect is the Prev step |
| PatientSearch.SearchRequest | cora-chrome-extension/src/components/app/PatientSearch.jsx:17-24 | the request asks for 50 patients of the query, skipping `page - 1` |
| PatientSearch.NewSearchStartsAtPageOne | cora-chrome-extension/src/components/app/PatientSearch.jsx:65-69 | Search and Enter both request page 1 |
| PatientSearch.NextGuard | cora-chrome-extension/src/components/app/PatientSearch.jsx:37-41 | Next searches `currentPage + 1` iff the page is before the last one, and otherwise does nothing; when the total is finite, doing nothing means the current pages already cover it |
| PatientSearch.PrevGuard | cora-chrome-extension/src/components/app/PatientSearch.jsx:43-47 | Prev searches `currentPage - 1` iff the page is above 1, and otherwise does nothing |
| PatientSearch.SearchOutcome | cora-chrome-extension/src/components/app/PatientSearch.jsx:24-29 | a successful answer moves to the requested page with the answer's patients and total |
| PatientSearch.StepKeepsPageAboveZero | cora-chrome-extension/src/components/app/PatientSearch.jsx:37-69 | one event never moves the page from 1 or more to below 1 |
| PatientSearch.SearchFlowPage | cora-chrome-extension/src/components/app/PatientSearch.jsx:24-30 | a search leaves the page where it was or moves it to the requested page |
| PatientSearch.SearchView.FetchPage | cora-chrome-extension/src/components/app/PatientSearch.jsx:24 | the fetch is `fetchPatients` of the page, 50 per page and the query; the view state is untouched |
| PatientSearch.PageNeverBelowOne | cora-chrome-extension/src/components/app/PatientSearch.jsx:15-69 | from page 1 or more, no sequence of events leaves the page below 1 |
| PatientSearch.ReachablePages | cora-chrome-extension/src/components/app/PatientSearch.jsx:15 | every page reachable from the initial state is at least 1 |
| PatientSearch.NextStaysInRange | cora-chrome-extension/src/components/app/PatientSearch.jsx:35-40 | Next only moves to a page that still holds patients |
| PatientSearch.TextTotalPages | cora-chrome-extension/src/components/app/PatientSearch.jsx:35 | a total written as a decimal string gives the same page count as the number |
| Numbers.ToNumber | cora-chrome-extension/src/components/app/PatientSearch.jsx:35 | `Number(total)`: `undefined` is NaN, `null` 0, a boolean 0 or 1, a number itself, and anything else converts through its string form |
| Numbers.StringToNumber | cora-chrome-extension/src/components/app/PatientSearch.jsx:35 | a string converts after trimming: "" is 0, radix literals and signed decimals and Infinity read as such, anything else is NaN |
| Numbers.IntStringToNumber | cora-chrome-extension/src/components/app/PatientSearch.jsx:35 | the decimal form of an integer converts back to that integer |
| Numbers.SingletonArrayToNumber | cora-chrome-extension/src/components/app/ExtractPatientData.jsx:134 | a one-element array of an integer converts like the integer |
| Numbers.CeilDivBy | cora-chrome-extension/src/components/app/PatientSearch.jsx:35 | `Math.ceil(x / d)` is the least integer whose multiple of `d` reaches a finite `x`; infinities and NaN pass through |
| Numbers.LessThanCeiling | cora-chrome-extension/src/components/app/PatientSearch.jsx:35-40 | a page below `Math.ceil(x / d)` is one whose first `d` patients lie below `x` |
| App.PatientIdOf | cora-chrome-extension/src/App.jsx:57 | `/patient/:id` matches iff the rest of the path is one non-empty segment, and the path is the prefix plus the id |
| App.PatientPathRoundTrip | cora-chrome-extension/src/App.jsx:57 | "/patient/" + id matches iff the id is a non-empty segment, and then gives back the id |
| App.Route | cora-chrome-extension/src/App.jsx:47-59 | the home and detail screens need the flag; every redirect goes to "/home" when logged in and "/login" when not |
| App.SearchIsNotADetailPath | cora-chrome-extension/src/App.jsx:57-58 | the manual-search path is not read as a patient id |
| App.RootRoute | cora-chrome-extension/src/App.jsx:48-51 | "/" shows Login when logged out and redirects to "/home" when logged in |
| App.ProtectedRoutes | cora-chrome-extension/src/App.jsx:54-57 | "/home" and "/patient/:id" render when logged in and redirect to "/login" when not |
| App.OpenRoutes | cora-chrome-extension/src/App.jsx:52-58 | "/login" and "/patient-manaual-search" render whatever the flag says |
| App.RedirectsSettle | cora-chrome-extension/src/App.jsx:47-59 | following a redirect never redirects again: it lands on Home or Login |
| App.FirstMount | cora-chrome-extension/src/App.jsx:14-35 | a fresh panel is logged in after mounting iff both tokens are stored and non-empty |
| App.MountAfterLogin | cora-chrome-extension/src/App.jsx:32-33 | after a successful `AuthLogin` both tokens are truthy, and mounting logs the user in iff their stored string forms are non-empty, which holds for every non-array token |
| App.MountAfterLogout | cora-chrome-extension/src/App.jsx:32 | after the tokens are cleared, mounting leaves the user logged out |
| App.NeverLoggedOut | cora-chrome-extension/src/App.jsx:37-39 | once raised, the flag stays raised |
| App.RaisedBySomeEvent | cora-chrome-extension/src/App.jsx:31-39 | the flag is raised after a run iff it started raised or some event raised it |
| App.AppView.constructor | cora-chrome-extension/src/App.jsx:14 | the flag starts false |
| App.AppView.Mount | cora-chrome-extension/src/App.jsx:29-35 | the flag after mounting is `AfterMount` of the browser state |
| App.AppView.HandleLoginSuccess | cora-chrome-extension/src/App.jsx:37-39 | the flag is raised |
| App.AppView.Dispatch | cora-chrome-extension/src/App.jsx:29-39 | each event changes the flag as `FlagStep` says |
| Sorting.Sort | cora-chrome-extension/src/components/app/PatientDetail.jsx:91 | the sort is a permutation, sorted by the comparator |
| Sorting.SortKeepsElements | cora-chrome-extension/src/components/app/clinicalNote/SuspectedCodes.jsx:58 | the sort keeps exactly the same elements |
| Sorting.InsertTies | cora-chrome-extension/src/components/app/PatientDetail.jsx:91 | inserting an element adds it after every element equivalent to it |
| Sorting.SortIsStable | cora-chrome-extension/src/components/app/PatientDetail.jsx:91 | the sort is stable: the elements equivalent to any element keep their order |
| Sorting.SortSwapsPair | cora-chrome-extension/src/components/app/clinicalNote/SuspectedCodes.jsx:58 | two elements the comparator puts the other way round are swapped |
| Text.Split | cora-chrome-extension/src/components/app/ExtractPatientData.jsx:192-200 | `split` gives separator-free pieces, more than one iff the separator occurs, and the first piece ends at the first separator |
| Text.JoinSplit | cora-chrome-extension/src/components/app/ExtractPatientData.jsx:64 | joining the pieces of a split gives the string back |
| Text.SplitJoin | cora-chrome-extension/src/components/app/ExtractPatientData.jsx:64 | splitting a join of separator-free pieces gives the pieces back |
| Text.Trim | cora-chrome-extension/src/components/app/ExtractPatientData.jsx:192 | `trim` is the slice left after dropping leading and trailing whitespace |
| Text.TruthyText | cora-chrome-extension/src/api/auth.js:67-76 | a truthy value gives its string form and a falsy or missing one gives nothing |
| Text.TextOr | cora-chrome-extension/src/api/auth.js:10 | `String(v || fallback)`: the string form of a truthy value, else the fallback |
| Text.ToLowerAscii | cora-chrome-extension/src/components/app/HccCard.jsx:80 | `toLowerCase` maps each ASCII capital to its lower-case letter |
| Text.PadStart2 | cora-chrome-extension/src/components/app/ExtractPatientData.jsx:93-94 | `padStart(2, "0")` left-pads with zeros to length two |
| Text.ParseIntRoundTrip | cora-chrome-extension/src/components/app/ExtractPatientData.jsx:68-69 | `parseInt` reads back the decimal rendering of any integer |

## Left out

- The network and the browser are left out. `fetch` is an oracle over the request log. CORS options, `mode` and `credentials` are not sent in the model. The `chrome.storage` mirror in `clearTokens` is not modelled.
- The Chrome extension APIs, `chrome.storage` and the content and background scripts are left out, because they are platform plumbing.
- The DOM scraping of `ExtractPatientData.jsx` is left out: `DOMParser`, `querySelector`, the phone-number lookup and its fallback. The model starts from the identifier span's text. The `findExactMatch()` call made during rendering is also out; `FindExactMatch` models one call.
- `JSON.parse` is a parameter in `HccCard.ParseEvidences`, and response bodies arrive already parsed. No JSON parser is modelled.
- `localeCompare` is an abstract consistent order, a parameter of `SuspectedCodes.SortGroups`.
- `new Date().toISOString()` and the current year are parameters.
- Concurrent refreshes after overlapping 401s are not modelled, because they depend on async scheduling. Each call runs to completion before the next one starts.
- Logging, the toast library's timing and the loading spinners' rendering are left out. The `loading` flags are modelled.
- `Login.jsx` and the pure rendering components are not part of this model: `Home.jsx`, `PatientList.jsx`, `CoraAIContainer.jsx`, `CustomModal.jsx`, `CustomSelect.jsx`, `NavigationListener.jsx` and `RestrictedUser.jsx`.
- The base URLs imported from `./apiUrls` are opaque string parameters. `apiUrls.js` is not part of this model.
- `HccCard.jsx`'s accept and reject handlers are modelled by the requests they send: `HccRiskService.ApproveCall` and `HccRiskService.RejectCall`. The modal toggles and the toasts are UI state and are left out.
- App.Route: React Router's case-insensitive matching and its trailing-slash tolerance are not modelled; paths match exactly.
- App.AppView.Mount: models only the flag; the click-swallowing listener and its removal are DOM plumbing.
- PatientSearch.ApplyAnswer: when the answer is `null`, the model says the error changes but does not state the TypeError message that reading `patients` of `null` produces.
- Js.Json: a JSON number is an integer. A non-integer number in a response body (a `total` of 1.5, which `ExtractPatientData.jsx` would show as "multiple") cannot be an input, and the double formatting of `String(n)` (`String(1e21)` is "1e+21") is not modelled; `IntToString` writes every digit.
- HccRiskService.RejectCall: a `None` note is an omitted note (`undefined`), which the default turns into "". An explicit `null` note, which the source would send as `null`, cannot be expressed.
- HccRiskService.ApproveCall: the id is a JSON value. `HccCard.jsx` passes `hccRisk?.id`, which is `undefined` for a card without an id, and `JSON.stringify` would then leave `hcc_risk_id` out of the body; that case is not modelled, for `RejectCall` either.
- Numbers.ToNumber: numbers are exact rationals and unbounded integers. Doubles round, and overflow to Infinity past about 1.8e308; the model does neither. An object converts through "[object Object]" and so is NaN; a custom `toString` or `valueOf` is not modelled.
- SuspectedCodes.SortGroups: V8 decides which two groups the comparator sees, so whether a codeless group is ever the comparator's first argument depends on the engine. The model throws as soon as a codeless group shares its class with another group, and takes a `null` group's error first.
- PatientDetail.SortCards: when a strength names an `Object.prototype` member (for example "toString"), the comparator returns NaN and the order is implementation-defined. The model then ranks such a card 3 and promises only a permutation.
- App.MountAfterLogin: an array token whose string form is "" (for example `[[]]`) is stored as "" and does not log the user in; the model states this rather than excluding it.
- Auth.LoginEffect: the stored tokens are the string forms of truthy values, so they need not be non-empty; the earlier non-empty promise is not made.
- ExtractPatientData.ConvertDob: `new Date(year, month, day)` uses the local time zone, which moves the representable range by up to a day at either end; the model uses UTC.
- ExtractPatientData.FormattedDate: its own contract states only the cases that give "". The formatted dates are stated by `FormatsValidDate`, `TwoDigitYear` and `WrittenDate`.
- ExtractPatientData.Extract: the phone number field is not modelled, because it comes from the DOM lookup left out above.
- Strings are sequences of Unicode scalar values. The UTF-16 detail matters only for the 🎂 and 📁 in the DOB pattern; `ExtractPatientData` models it there, with one gap below.
- ExtractPatientData.TakeUntilStop: a character outside the Basic Multilingual Plane whose low surrogate is 0xDCC1 but whose high surrogate is not 0xD83D ends the capture before the whole character. The regular expression, which has no `u` flag, keeps that character's high surrogate in the capture. A lone surrogate cannot be a Dafny `char`, so the model cannot hold it.

## Findings

| source | as written | input that shows it | evidently intended | confidence | as-written member | corrected member |
|---|---|---|---|---|---|---|
| cora-chrome-extension/src/api/ApiConfig.js:237-244 | the error built from `detail` or `message` is thrown inside the `try` whose own `catch` replaces it, so every non-OK response throws "API request failed: " + the raw body text | a 404 whose body is `{"detail":"Patient not found"}` throws `API request failed: {"detail":"Patient not found"}` | throw "Patient not found", and use the text fallback only when the body does not parse | high; not executed | ApiConfig.DetailIsDiscarded | ApiConfig.HandleApiResponseIntended |
