# SMART-on-FHIR vitals client: auth session, patient selection and vital submission

A Dafny model of the logic inside a browser client that signs a clinician in through the
SMART-on-FHIR OAuth2 authorization-code flow and then reads and writes vital-sign Observations
on a FHIR R4 server. The model covers four parts:

- **Token store** (`AuthStore`, from `src/stores/authStore.ts`). This is a class with the
  session's nine fields. It persists to session storage (`Browser.SessionStorage`, a class
  holding a map). `SetTokens` replaces the session and `ClearAuth` resets it. The session is
  restored at start-up by `LoadPersistedState`.
- **Patient store** (`PatientStore`, from `src/stores/patientStore.ts`). This is a class with
  four fields. Each transition says which fields it sets and which it keeps.
- **Vitals client** (`VitalsService`, from `src/services/vitalsService.ts`). It builds the
  Observation to post: the °F→°C conversion and the `.000Z` timestamp. It models the retry loop
  of `addVital` as a method proved against a step function `Run`. A full characterization of
  that loop is proved for every sequence of replies. It also models the two lookup tables and
  the extraction of `entry` resources from a search Bundle.
- **Auth controller** (`AuthService`, from `src/services/authService.ts`). It covers
  `initialize`, `handleCallback`, `exchangeCodeForToken`, `refreshAccessToken` and
  `getLoginUrl`. It also holds the store's `getAccessToken`: the two source files import each
  other, and Dafny modules cannot.

The environment is passed in as inputs:
- the deployment configuration (`Config`);
- the page's query parameters, as a map;
- the clock readings, in milliseconds (`now`; for `getAccessToken` also `refreshedAt`, the
  reading `setTokens` takes once the refresh reply has arrived);
- the ISO timestamp of the submission;
- the fresh anti-CSRF state token;
- the token endpoint, as a function from the posted form to its reply;
- the POST replies of `addVital`, as a function from the attempt index to its outcome;
- the Observation search reply;
- the decoder of an access-token payload, a function that returns `Option`.

`initialize`, and `getAccessToken` after a failed refresh, return their redirect as the
request's parameter map. The redirect that the `invalid_grant` restart triggers is not returned.

Notes on the code as written, which the model follows:
- `addVital` always posts LOINC 8331-1 in `Cel`, whatever the vital type. It never consults
  `getCodeForVitalType` or `getUnitCode`, which nothing calls.
- A retry happens on a 504 response. It also happens on any caught error whose message
  mentions "504". The "Failed to add vital" error for another status is thrown inside the `try`,
  so a 500 whose status text or body mentions "504" is retried (`HttpFailureRetriedIff`).
- After three 504 responses the error is "Failed to add vital after 3 attempts: …". When the
  third failure is a caught error rather than a 504 response, that error is rethrown.
- On `invalid_grant` the exchange runs `initialize` and resolves to `undefined`.
  `handleCallback` then reads `.patient` of `undefined` and fails with a TypeError. The restart
  is not absorbed.
- `initialize` overwrites `launch_token`, `iss` and `launch_patient_id` only when the parameter
  is present. A stale value from an earlier launch stays in storage.
- The expiry test is `expiresAt && …`. An expiry of 0, like a missing one, never counts as
  expired.
- A refresh stores `patient || ''` from the refresh response and leaves `needPatientBanner`
  undefined. The session's `patientId` set at the callback is therefore replaced by the refresh reply's
  `patient`, or by "" when the reply has none.

## Model

| member | source | states |
|---|---|---|
| `Common.Split` | src/services/authService.ts:87-88 | `split('.')`: one more piece than there are dots, no piece contains a dot, joining the pieces with dots gives the input back, and the first piece is the text before the first dot |
| `AuthStore.LoadPersistedState` | src/stores/authStore.ts:16-36 | the stored session blob is restored as it was; with nothing stored, or an unparseable item, the state is the empty unauthenticated shape |
| `AuthStore.RefreshStaysDue` | src/stores/authStore.ts:78-81 | a refresh that is due at one clock reading is still due at every later one |
| `AuthStore.NeverDueWithoutExpiryOrRefreshToken` | src/stores/authStore.ts:78-81 | a session with no expiry, an expiry of 0, or no non-empty refresh token is never refreshed, whatever the clock says |
| `AuthStore.FreshSessionNotDue` | src/stores/authStore.ts:43-81 | a session that `setTokens` stores with `expires_in` of at least 60 s is not due for a refresh at the moment it is stored |
| `AuthStore.Store.constructor` | src/stores/authStore.ts:39 | the store starts from the persisted state |
| `AuthStore.Store.SetTokens` | src/stores/authStore.ts:43-58 | authenticated, no error, every token, id and the banner flag stored verbatim, `expiresAt = now + expiresIn*1000`; the persisted blob is the new state and reloads to it; the session stays consistent (authenticated implies an access token) |
| `AuthStore.Store.ClearAuth` | src/stores/authStore.ts:59-72 | whatever the prior state, every field is null, `isAuthenticated` and `needPatientBanner` are false, and the blob is removed; the result equals the start-up state with nothing persisted, so clearing twice is clearing once |
| `PatientStore.Store.constructor` | src/stores/patientStore.ts:5-12 | the store starts with nothing selected and not loading |
| `PatientStore.Store.SetPatientId` | src/stores/patientStore.ts:16-22 | sets `patientId` and `loading`; `patient` and `error` unchanged |
| `PatientStore.Store.SetPatient` | src/stores/patientStore.ts:23-30 | sets `patient`, clears `loading` and `error`; `patientId` unchanged |
| `PatientStore.Store.SetError` | src/stores/patientStore.ts:31-37 | sets `error`, clears `loading`; `patientId` and `patient` unchanged |
| `PatientStore.Store.Reset` | src/stores/patientStore.ts:38 | back to the initial state from any state, hence idempotent |
| `VitalsService.UnitCodeTable` | src/services/vitalsService.ts:212-221 | of `UnitCode`: the five listed units map to `[degF]`, `mm[Hg]`, `{beats}/min`, `/min`, `%`; any other unit is returned unchanged; a second lookup changes nothing |
| `VitalsService.CodeForVitalTypeDomain` | src/services/vitalsService.ts:171-210 | of `CodeForVitalType`: the coding lookup is defined for exactly the five vital types, always in the LOINC system |
| `VitalsService.StoredValueConverts` | src/services/vitalsService.ts:70-74 | of `StoredValue`: conversion happens exactly for `temperature` in `°F`, and converting back recovers the input; otherwise the value is kept |
| `VitalsService.NormalBodyTemperature` | src/services/vitalsService.ts:72-73 | 98.6 °F is stored as 37 °C |
| `VitalsService.EffectiveDateTimeShape` | src/services/vitalsService.ts:77-78 | of `EffectiveDateTime`: the timestamp ends in `.000Z` after the longest dot-free prefix of the ISO string, which stops right before its first dot |
| `VitalsService.ObservationIgnoresVitalType` | src/services/vitalsService.ts:80-108 | of `BuildObservation`: every submission is posted as LOINC 8331-1 in `Cel` with subject `Patient/<id>`; two submissions differing only in vital type post the same resource apart from the value, and the same value too unless the unit is `°F` |
| `VitalsService.AddVital` | src/services/vitalsService.ts:62-169 | returns the resource it posts and follows the retry loop step for step; one to three POSTs, waits of 1000 then 2000 ms, success exactly when the last POST got a 2xx |
| `VitalsService.RunFrom` | src/services/vitalsService.ts:114-166 | of `Run`, the loop's step-by-step definition: from any attempt, the loop ends at the first outcome it does not retry (or the third), with the waits so far and that outcome's result |
| `VitalsService.AddVitalOutcome` | src/services/vitalsService.ts:110-168 | of `Run` from the start: for every sequence of replies, POSTs until the first outcome not retried, or three times; waits 1000·k ms before POST k+1; a final 504 gives the "after 3 attempts" error, any other final failure the caught error |
| `VitalsService.TraceShape` | src/services/vitalsService.ts:110-166 | at most three POSTs, the waits between them, stop on the first 2xx, and every earlier POST was a retried failure |
| `VitalsService.ThreeGatewayTimeouts` | src/services/vitalsService.ts:146-168 | three 504s: three POSTs, waits 1000 and 2000 ms, and "Failed to add vital after 3 attempts: " with the third response's status line |
| `VitalsService.StatusLineMentions504` | src/services/vitalsService.ts:146 | the status line mentions "504" exactly when the status, its text or the body does |
| `VitalsService.HttpFailureRetriedIff` | src/services/vitalsService.ts:149-164 | a non-504 failure status is retried exactly when its status text or body mentions "504" |
| `VitalsService.NonTimeoutFailsAtOnce` | src/services/vitalsService.ts:148-164 | a first non-504 failure that does not mention "504" (a plain 500) fails after one POST with no wait |
| `VitalsService.EntryResources` | src/services/vitalsService.ts:59 | one resource per entry, in order |
| `VitalsService.PatientVitalsOutcome` | src/services/vitalsService.ts:35-60 | of `GetPatientVitals`: a non-2xx status always fails with its status line; a Bundle without `entry` gives the empty list; otherwise the entries' resources in order |
| `AuthService.AuthorizationRequests` | src/services/authService.ts:48-56 | of `AuthorizeParams` and `LoginParams` (the latter from lines 175-181): the launch request has exactly seven parameters, `aud` = issuer if present else the FHIR base, `launch` = launch token if present else the default; the re-login request has exactly five and equals it without `aud` and `launch` |
| `AuthService.InitializeStorage` | src/services/authService.ts:22-46 | of `AfterInitialize`: the session blob is always removed and the fresh state token stored; launch token, issuer and patient are stored only when present, and stale ones are kept otherwise; other items are untouched |
| `AuthService.Initialize` | src/services/authService.ts:18-68 | the storage effects above and a redirect to the launch request's parameters |
| `AuthService.GetLoginUrl` | src/services/authService.ts:165-184 | stores the fresh state token and returns the five re-login parameters, with no `aud` or `launch` |
| `AuthService.ExchangeOutcomes` | src/services/authService.ts:203-222 | of `ClassifyExchange`: parsed tokens exactly for a 2xx JSON reply; a restart exactly for a rejection whose JSON `error` is `invalid_grant`; every other rejection fails with a message starting "Token exchange failed: " |
| `AuthService.RefreshAgreesWithExchange` | src/services/authService.ts:146-150 | of `RefreshResult`: a refresh accepts exactly the replies a code exchange accepts, with the same tokens, and never restarts: every rejection is "Failed to refresh token" |
| `AuthService.ExchangeCodeForToken` | src/services/authService.ts:186-223 | the three outcomes; on a restart the storage is that of `initialize` and the result is `undefined` |
| `AuthService.RefreshAccessToken` | src/services/authService.ts:128-163 | on success the session becomes the refreshed tokens with patient defaulting to ""; on failure store and storage are untouched |
| `AuthService.PatientIdPriority` | src/services/authService.ts:76-98 | of `ResolvePatientId`: the patient is the token response's when non-empty, else the URL's when non-empty, else "" when the access token does not hold exactly two dots |
| `AuthService.PatientIdFromToken` | src/services/authService.ts:85-96 | with neither earlier source and exactly two dots, the token is its three pieces joined by dots and the patient is `patient_id` or else `context.patient` of the decoded middle piece, "" when decoding fails |
| `AuthService.DecoderConsultedOnlyForThreeSegments` | src/services/authService.ts:85-96 | the payload decoder cannot affect the result unless both earlier sources are empty and the token has three segments |
| `AuthService.PatientIdProvenance` | src/services/authService.ts:76-98 | a non-empty resolved id is the token's patient, the URL's, or `patient_id`/`context.patient` of the middle segment's payload |
| `AuthService.HandleCallback` | src/services/authService.ts:70-122 | on exchange: session set with the resolved patient, and the patient store updated only when that id is non-empty; after a restart it fails with a TypeError, having run `initialize`'s storage effects; other failures propagate with nothing changed |
| `AuthService.GetAccessToken` | src/stores/authStore.ts:73-95 | no refresh due: the stored token, which may be stale or null, and nothing changes; refresh due: the refresh is posted with the stored refresh token, and its access token is returned, with the new session expiring `expires_in` seconds after `refreshedAt`; on a failed refresh the session is cleared, the re-login state stored, the re-login request's parameters returned as the redirect and null returned; a redirect is returned exactly then; always returns the token the store then holds |

## Left out

- `fetch`, request headers, URL strings and their encoding: requests are modelled as forms and parameter maps, and the network as reply inputs. A query parameter that occurs twice is not modelled.
- `window.location` redirects, `history.replaceState` and console logging: these are I/O with no effect on the modelled state.
- `generateState` uses `Math.random`, so the state token is an input.
- `JSON.parse`, `JSON.stringify` and `atob` are modelled as already-parsed inputs. The session blob is stored as the session value itself. Any text stored under `authState` counts as unparseable, even text that is valid JSON of a session.
- The decoded token payload's fields are modelled as optional strings. A decoding failure, including a `null` payload, is `None`.
- `toFixed(1)` rounding and IEEE arithmetic are not modelled: the °F→°C formula is over `real`.
- `setTimeout` waits are recorded as delay values; time is not modelled.
- Svelte subscription and notification, the `getInstance` singleton and `import.meta.env` are framework plumbing. The configuration is a `Config` input.
- `getPatient` is a fetch wrapper with no logic of its own.
- `ExchangeCodeForToken`: the redirect of the `initialize` run after `invalid_grant` is not returned. Its storage effects are modelled, and the callback fails right after it.
- Exceptions thrown by session storage (quota) are not modelled. So `initialize` never fails, and the path at src/services/authService.ts:216 where a failing `initialize` is caught is not modelled.
- Lookups of inherited `Object.prototype` names (`getUnitCode("toString")`) are not modelled: the tables are modelled as plain maps.
- Runtime values outside the declared types are not modelled: an `undefined` access token or `expires_in`, or a `null` search body.
- Concurrent callers of `getAccessToken` are not modelled: the model is single-threaded.
- The build and styling configuration and `src/types/*.ts` have no behaviour. The types give the datatype shapes.
- `PatientStore.Store.SetPatient` takes an optional Patient where the source accepts any value.
