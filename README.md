# Authenticated request service: a Dafny model

This project models `AuthService`, the request layer of the Layar API client.
It does four things:

- It normalises every API call: default headers, observer suppression, response type, timeout and parameter clean-up.
- It attaches a bearer credential to the call. Concurrent calls that need new credentials share one acquisition.
- It decides whether a failed call is worth a token refresh.
- It parks eligible failures behind a single outstanding refresh. When that refresh settles, it replays or rejects the parked calls in arrival order.

Modules:

- `Values` (values.dfy): the JavaScript values the service handles, as datatypes. These are parameter items (`undefined`, strings, dates), parameter values, bodies, credentials, queued requests, errors and responses.
- `Text` (text.dfy): `toLowerCase`, `indexOf` and the numeric coercion `+s` of a string.
- `Normalizer` (normalizer.dfy): the part of `request` that runs before credentials are attached, plus the verb helpers' paths. A `ghost predicate` states what is promised about headers (`HeadersPrepared`), params (`ParamsNormalized`) and the whole call (`PreparedFrom`). Methods that follow the source's step-by-step updates establish these predicates.
- `Eligibility` (eligibility.dfy): `shouldAttemptRefresh`.
- `Service` (auth_service.dfy): the class `AuthService`. Its fields are `credentials`, the acquisition slot `acquisition` (`credentialsSubject` together with the calls subscribed to it), the refresh queue `pending: Option<seq<PendingRequest>>` and the observer's version. The class also has a ghost count of refreshes in flight. The module also holds the drain loop and the lemmas about replay.

Asynchronous callbacks become explicit events, each a method call on the service:

- `Request` starts a call.
- `AcquisitionSettled` reports the end of a credential acquisition.
- `OnResponse` and `OnError` report the end of a transport exchange.
- `ProcessRefresh` parks a call.
- `Settle` reports that the refresh has ended.

Interleavings of callbacks become orders of these calls. `Valid()` states the single-flight invariant: a refresh is outstanding exactly when a queue exists, and at most one is ever outstanding.

Inputs the service reads from the outside world become parameters:

- the base URL;
- whether the strategy can refresh;
- the current time `now` (`Date.now()`);
- the outcome of each acquisition and refresh;
- the transport's response or error.

JavaScript truthiness is written out:

- A header or parameter counts as set when it is present and not `''`, or, for a parameter, not `undefined`.
- An empty refresh token, or an `expiration` of 0, stands for an absent one.
- `NoBody` stands for every falsy body.

The caller's header and parameter maps are values, so the service cannot modify them (and the caller cannot modify them after the call; see "## Left out").

Behaviour that follows the code rather than a looser reading of the service's contract:

- Acquisition errors and timeouts reach the same error callback as transport errors (lines 128-149). So they go through `shouldAttemptRefresh` too, and one whose payload says `invalid_token` can start a refresh. `OnError` takes any of them.
- The suppression marker is deleted only when its value is non-empty (line 96). An empty marker is sent and does not suppress the observer.
- Only dates whose `getTime()` is non-zero and not NaN are sent as ISO strings (line 111). Other dates pass through unchanged.
- The timeout override applies whenever `TIMEOUT_MS` is truthy. A value of `"0"` therefore gives a timeout of 0. An absent, `undefined` or empty value gives 300000 ms.
- Settlement first sets the credentials, once: to the refreshed value, to `undefined` on error, or unchanged when the refresh completes without a value. It then decides replay or rejection for the whole snapshot using that single value (lines 206-224).

## Model

| member | source | states |
|---|---|---|
| `Text.IndexOf` | src/app/auth/auth.service.ts:185-187 | `indexOf(sub) >= 0` exactly when `sub` occurs in the string, and the index is then the first occurrence |
| `Text.LowerCaseFinds` | src/app/auth/auth.service.ts:183-187 | a substring matching `sub` when case is ignored is found by `indexOf` once the whole string is lower-cased |
| `Text.LowerCase` | src/app/auth/auth.service.ts:183 | the lower-cased string has the same length, no upper-case ASCII letter, and every other character unchanged |
| `Text.LowerCaseFindsOnly` | src/app/auth/auth.service.ts:183-187 | conversely, what `indexOf` finds in the lower-cased string is a case-insensitive match at that position of the original |
| `Text.ToNumber` | src/app/auth/auth.service.ts:101 | `+s` is a number exactly for decimal-digit strings (and `''`), and that number is non-negative |
| `Text.ToNumberDecimalString` | src/app/auth/auth.service.ts:101 | every count of milliseconds written in decimal reads back as itself |
| `Normalizer.ResponseTypeFor` | src/app/auth/auth.service.ts:98-99 | the response is read as a blob exactly for `application/octet-stream`, as JSON exactly for `application/json`, and as text otherwise |
| `Normalizer.HelperPath` | src/app/auth/auth.service.ts:154-172 | `DELETE` passes the path unchanged; every other verb helper passes `/layar` followed by the path |
| `Normalizer.PrepareHeaders` | src/app/auth/auth.service.ts:89-96 | `Accept` and `X-Vyasa-Client` get defaults when unset; `Content-Type` gets a default only when there is a body; other headers are sent as given; no other key is added; a truthy marker is removed; suppression holds exactly when the marker or a caller `Authorization` is set |
| `Normalizer.CallerHeadersKept` | src/app/auth/auth.service.ts:89-93 | every non-empty caller header other than the marker is sent with the caller's value |
| `Normalizer.NormalizeParams` | src/app/auth/auth.service.ts:104-121 | the params sent are exactly the caller's keys, minus `TIMEOUT_MS`, whose values survive normalisation, each with its normalised value |
| `Normalizer.Serialize` | src/app/auth/auth.service.ts:110-112 | a date with a non-zero, non-NaN time becomes its ISO string; every other element, `undefined` included, is left as it is |
| `Normalizer.Present` | src/app/auth/auth.service.ts:110-113 | the serialised array is never longer than the original and holds no `undefined` |
| `Normalizer.PresentOne` | src/app/auth/auth.service.ts:110-113 | a single element is dropped when `undefined` and otherwise kept, serialised; with `PresentAppend` this fixes the map-and-filter result on every array |
| `Normalizer.NormalizedDate` | src/app/auth/auth.service.ts:106-118 | a one-date array with a non-zero time is sent as that date's ISO string |
| `Normalizer.NormalizedValue` | src/app/auth/auth.service.ts:106-118 | the key is removed exactly when its value is `undefined` or nothing survives filtering; otherwise the value sent holds exactly the surviving elements, as an array only when there are at least two |
| `Normalizer.PresentAppend` | src/app/auth/auth.service.ts:109-113 | filtering an array distributes over concatenation, so kept elements stay in their original order |
| `Normalizer.PresentStrings` | src/app/auth/auth.service.ts:109-113 | an array of strings passes the map-and-filter step unchanged |
| `Normalizer.NormalizedStrings` | src/app/auth/auth.service.ts:106-118 | for string params: `undefined` and `[]` remove the key, `[x]` becomes `x`, a longer array is sent unchanged and in order |
| `Normalizer.NormalizedDefined` | src/app/auth/auth.service.ts:110-117 | no value that is sent holds an `undefined` element |
| `Normalizer.Coerce` | src/app/auth/auth.service.ts:101 | `+v`: a string reads as `+s`, `[]` and `[undefined]` read as 0, and a one-string array reads as that string |
| `Normalizer.ParamTruthy` | src/app/auth/auth.service.ts:101 | an `undefined` or empty-string `TIMEOUT_MS` is falsy, and any array, even an empty one, is truthy |
| `Normalizer.TimeoutMs` | src/app/auth/auth.service.ts:101 | without `TIMEOUT_MS` the timeout is 300000 ms |
| `Normalizer.TimeoutOverride` | src/app/auth/auth.service.ts:101 | a `TIMEOUT_MS` of `n` in decimal, alone or as a one-element array, sets the timeout to `n` |
| `Normalizer.TimeoutDefault` | src/app/auth/auth.service.ts:101 | an undefined or empty `TIMEOUT_MS` is falsy and leaves the 5-minute default `DEFAULT_TIMEOUT_MS` of lines 11-12 |
| `Normalizer.Prepare` | src/app/auth/auth.service.ts:88-126 | the request carries the caller's method and body, `baseUrl + path`, the prepared headers and normalised params, the response type chosen from the sent `Accept`, and the resolved timeout |
| `Normalizer.ResponseTypeChoice` | src/app/auth/auth.service.ts:98-99 | with no caller `Accept` responses are read as JSON; `application/octet-stream` is read as a blob; any other value as text |
| `Eligibility.ShouldAttemptRefresh` | src/app/auth/auth.service.ts:174-192 | refresh exactly when: no caller `Authorization`; a refresh token and a refresh operation exist; the lower-cased error does not contain `payment_required`; the status is not 402; and the error contains `invalid_token` or `unauthorized` |
| `Eligibility.ErrorText` | src/app/auth/auth.service.ts:181-183 | the error string is `''` when the payload has no `error` string, and otherwise has the payload's length and no upper-case ASCII letter |
| `Eligibility.CanRefresh` | src/app/auth/auth.service.ts:177 | refreshing is impossible without credentials, without a refresh token, or without a strategy refresh operation |
| `Eligibility.EligibleWhateverCase` | src/app/auth/auth.service.ts:183-191 | an `invalid_token` or `unauthorized` in any letter case makes an otherwise eligible failure eligible |
| `Eligibility.BillingNeverRefreshes` | src/app/auth/auth.service.ts:183-186 | an error mentioning `payment_required` in any case never starts a refresh |
| `Eligibility.NoCodeNeverRefreshes` | src/app/auth/auth.service.ts:181-188 | a failure without an error string (a timeout, a network error) never starts a refresh |
| `Service.Fresh` | src/app/auth/auth.service.ts:78 | credentials without an expiration are always fresh |
| `Service.FreshUntilExpiry` | src/app/auth/auth.service.ts:78 | credentials fresh at some instant were fresh at every earlier one, and expired credentials stay expired |
| `Service.SentRequest` | src/app/auth/auth.service.ts:126 | the observer's `request` carries the normalised method, URL, body and params, and the normalised headers with the bearer `Authorization` that `setAuthHeader` wrote into them when it attached one |
| `Service.Notify` | src/app/auth/auth.service.ts:137-143 | a notice is produced exactly when an observer is installed and the call is not suppressed; it carries the whole request as `SentRequest` states, the outcome and the start-time version |
| `Service.ObservedVersion` | src/app/auth/auth.service.ts:127 | the version captured is the installed observer's, or 0 when none is installed |
| `Service.HasAccessToken` | src/app/auth/auth.service.ts:213 | the replay test fails without credentials and otherwise holds exactly when the access token is non-empty |
| `Service.Drain` | src/app/auth/auth.service.ts:212-219 | one action per snapshotted entry, in order: all replayed with their original inputs if the credentials have an access token, otherwise all rejected with status 401 and `Invalid access token.` |
| `Service.ReplayedInOrder` | src/app/auth/auth.service.ts:212-215 | after a successful refresh the requests re-issued are exactly the queue, in arrival order |
| `Service.RejectedReplayNothing` | src/app/auth/auth.service.ts:216-217 | after a failed refresh no queued request is re-issued |
| `Service.PreparedDeterministic` | src/app/auth/auth.service.ts:214-215 | normalisation is a function of the call's inputs, so a replay re-issued with the queued inputs is normalised to the same call as the one that failed: same method, URL, body, params, response type, timeout and suppression, and the same headers before credentials are attached (its `Authorization` is attached afresh, with the refreshed token) |
| `Service.PreAuthorizedCallsStayQuiet` | src/app/auth/auth.service.ts:141-143 | a call whose caller supplied `Authorization` never reports to the observer and is never refresh-eligible |
| `Service.AuthService.constructor` | src/app/auth/auth.service.ts:43-48 | a new service has no observer, no credentials, no acquisition outstanding and no refresh queue (line 194), so no refresh is in flight |
| `Service.AuthService.SetObserver` | src/app/auth/auth.service.ts:43 | the public `observer` field is replaced, which changes the version captured by calls started afterwards |
| `Service.AuthService.GetCredentials` | src/app/auth/auth.service.ts:59-70 | a call joins the outstanding acquisition; a new acquisition starts exactly when none is outstanding |
| `Service.AuthService.AcquisitionSettled` | src/app/auth/auth.service.ts:62-66 | on success the credentials are stored and every subscribed call, in order, gets `Bearer <token>`; on failure every subscribed call fails; either way the slot is cleared |
| `Service.AuthService.SetAuthHeader` | src/app/auth/auth.service.ts:72-86 | a caller `Authorization` is kept; credentials with no expiry or a future expiry are attached at once without acquisition; otherwise the call waits on the shared acquisition |
| `Service.AuthService.Request` | src/app/auth/auth.service.ts:88-128 | the call is normalised as `Prepare` states, captures the observer version at start and its raw inputs for replay, and is authorised as `SetAuthHeader` states |
| `Service.AuthService.Send` | src/app/auth/auth.service.ts:154-172 | every verb helper but `DELETE` prefixes `/layar` to the path, both in the URL and in the inputs kept for replay; the call is then normalised, versioned and authorised exactly as `Request` states, including the new state of the acquisition slot |
| `Service.AuthService.OnResponse` | src/app/auth/auth.service.ts:136-139 | the caller gets the response; the observer gets one notice exactly when it is installed and the call is not suppressed, tagged with the start-time version |
| `Service.AuthService.OnError` | src/app/auth/auth.service.ts:140-149 | an ineligible failure fails the call with at most one notice and leaves the queue alone; an eligible one is parked, sends no notice and is queued as `ProcessRefresh` states |
| `Service.AuthService.ProcessRefresh` | src/app/auth/auth.service.ts:195-206 | while a queue exists the entry is only appended and no refresh is issued; otherwise the queue becomes exactly that entry and one refresh is issued with the current credentials; the in-flight count grows by one only when a refresh is issued, and `Valid()` keeps it at one |
| `Service.AuthService.Settle` | src/app/auth/auth.service.ts:206-224 | the credentials are replaced first (refreshed value, cleared on error, kept on empty completion); the queue is then cleared, so nothing is in flight; the snapshot is drained in order as `Drain` states |

## Left out

- HTTP transport, the RxJS `Subject`, `mergeMap`, `timeout` and `finalize` plumbing, and the timer: their outcomes are events (`OnResponse`, `OnError`, `AcquisitionSettled`, `Settle`). `Prepared.timeoutMs` records the timeout but nothing expires.
- Concurrency: interleavings are orders of method calls on one service object.
- The base URL computation from the environment and the window's host name (line 45), and strategy selection from configuration (lines 51-56): `baseUrl` and `strategyRefreshes` are constructor parameters.
- The credential strategies (lines 6-9, not part of this model): an acquisition or a refresh is an input to `AcquisitionSettled` or `Settle`. A strategy that settles synchronously inside `getCredentials` is not modelled.
- An acquisition that completes without emitting a value leaves its subscribers waiting forever in the source. `AcquisitionSettled` takes only a value or an error.
- `Date` detection and `toISOString`: a date item carries its `getTime()` and its ISO rendering as data.
- Text.ToNumber: models `+s` only for `''` and decimal-digit strings. Every other string reads as NaN, although JavaScript also accepts surrounding whitespace, a sign, a fraction, an exponent and hex. The value is an exact integer, whereas JavaScript yields an IEEE double: digit strings above 2^53 are rounded there, and very long ones give `Infinity`.
- Normalizer.Coerce: covers `+[]` and `+[s]` for arrays, and `+date`. Every other array reads as NaN.
- Text.LowerCase: lower-cases ASCII letters only, not the full Unicode mapping of `toLowerCase`.
- Observer side effects: a notice is returned as a `Notice` value. Whether the consumer acts on it is outside the model.
- Call identity: nothing stops the same call from being completed twice in the model. One `OnResponse` or `OnError` per transport outcome is the caller's responsibility.
- Wiring a replay's outcome back to the original waiter (`.subscribe(subject)`, lines 147 and 215): `Settle` returns `Replay` actions. Re-issuing them through `Request` is left to the caller of the model.
- Undefined `params_` or `headers_`: the model takes maps. The source reads `headers_['Authorization']` and `params_[TIMEOUT_PARAM]` (lines 95 and 101) before or despite its `|| {}` fallbacks.
- Service.AuthService.Request and Service.AuthService.Settle: the source queues references to the caller's own `params_`, `headers_` and `data` objects (line 141) and replays from them (line 215). A caller that mutates them after the call changes what the replay sends, including its `TIMEOUT_MS`. The model captures them as values when the call starts, so this aliasing is not captured.
- JavaScript loose equality in `response.status == 402` (for example, a string `"402"`): statuses are integers.
