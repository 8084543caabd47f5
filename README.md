# Test-result harnesses of the AI Travelglobe API test scripts

The repository is a set of black-box HTTP test scripts for a travel-planning
backend. Two of them define a small harness that does the real work of every
check: `AITravelglobeAPITester` in backend_test.py and `GhostUserBugFixTester`
in ghost_user_test.py. `run_test` builds the request headers (session
defaults, then caller overrides, then a bearer token), dispatches on the HTTP
method, and classifies what comes back as a pass, a status mismatch or an
exception. `log_result` then bumps the counters and appends to the result
lists. At the end the script's result is "no failure was recorded".

This project models those two harnesses in Dafny. The network is not modelled.
Its place is taken by a parameter `send: Request -> Outcome`, which maps the
request the harness prepared to one of two results. The first is an exception,
given by its text. The second is a response: a status, the body as text, and
whether that body decodes as JSON.

Modules:

- `Http` (http.dfy) models the part of the `requests` library the harnesses use:
  - JSON values, the response and the outcome of one exchange;
  - the decode-or-raw-text payload;
  - the session's case-insensitive header dictionary (`CaseInsensitiveDict`) with `update`.
- `Decimal` (decimal.dfy) renders an integer in decimal the way Python's `str` does, and reads it back.
- `Harness` (harness.dfy) holds what the two scripts duplicate:
  - Python truthiness of the token and of the error;
  - the JSON session headers and the bearer value;
  - `Perform`, which sends a prepared request or raises the `UnboundLocalError` of an undispatched method;
  - the failure record, the "Unknown error" default and the `"Expected X, got Y"` text.
- `BackendTester` (backend_tester.dfy) is class `ApiTester`. It has a stored token, caller headers, and GET/POST/PUT/DELETE.
- `GhostUserTester` (ghost_user_tester.dfy) is class `GhostUserBugFixTester`. It has no list of passed names, takes the token per call, and dispatches GET/POST only.

The counters and lists are fields that the methods update in place. Each
class's `Valid()` invariant says that every logged test is either a pass or
exactly one failure record. In `ApiTester` it also says that `passedTests`
holds one name per pass. The constructor establishes `Valid()` and every
method preserves it.

Two points of the code matter here:

- The bearer token is written after the caller's headers. A caller's
  `Authorization` therefore never survives a truthy token.
- The ghost-user harness sends only GET and POST. PUT and DELETE end in its exception branch.

Python's `None` and a JSON `null` body decoded by `response.json()` are the same value. The model
also uses one value for both (`Http.PyNone`). A failure record therefore holds `None` both after
an exception and after a mismatch whose body is `null`.

## Model

| member | source | states |
|---|---|---|
| `Http.Update` | backend_test.py:39-41 | updating the copied headers with the caller's pairs gives `Overlay`; a name no pair writes (in any case) keeps its value, and the last pair writing a name decides its value |
| `Http.OverlayKeeps` | backend_test.py:40-41 | a header that none of the caller's pairs writes, compared case-insensitively, keeps the session value |
| `Http.OverlayLastWins` | backend_test.py:40-41 | a header takes the value of the last caller pair that writes it, whatever the case of its name |
| `Decimal.NatRoundTrip` | backend_test.py:66 | reading back the decimal rendering of a natural number gives that number |
| `Decimal.IntRoundTrip` | backend_test.py:66 | reading back the rendering of an int, negative ones with a leading `-`, gives that int |
| `Decimal.IntToStringInjective` | backend_test.py:66 | two statuses that render the same are equal |
| `Harness.JsonSession` | backend_test.py:12-13 | the session sends `Content-Type: application/json`, and every other default header is the library's |
| `Harness.ErrorText` | backend_test.py:30 | the recorded error is never empty; a truthy error is kept as given, and a missing or empty one becomes "Unknown error" |
| `Harness.MismatchMessageInjective` | backend_test.py:66 | the text `Expected X, got Y` determines both X and Y |
| `Harness.FailureRecordMeaning` | backend_test.py:62-71 | a failure record keeps the test's name. A record whose response is not `None` came from a status mismatch, and then its error is the mismatch text. After an exception it holds the exception text and `None`. "Unknown error" appears only after an exception |
| `Harness.ReceivedOutcome` | backend_test.py:55-67 | once a response arrives, the test passes exactly on the expected status; `run_test` returns the decoded JSON when the body decodes and the raw text otherwise; a mismatch record holds that same payload |
| `Harness.RaisedOutcome` | backend_test.py:69-71 | after an exception the test fails and `{}` is returned; the record holds the exception's text (its own when it is non-empty, otherwise "Unknown error") and `None` as the response |
| `Harness.NothingPreparedFails` | backend_test.py:45-53 | when no dispatch branch prepared a request, the call raises the UnboundLocalError without using the network, fails, returns `{}`, and records that error's text with `None` |
| `Harness.MismatchRecordsDetermineStatus` | backend_test.py:66 | two mismatch records with the same error text for the same expected status report the same actual status |
| `BackendTester.BearerWinsOverCaller` | backend_test.py:42-43 | with a truthy token, `Authorization: Bearer <token>` is sent, whatever `Authorization` the caller passed |
| `BackendTester.CallerOverridesSession` | backend_test.py:38-41 | a header the caller writes is sent with the caller's last value, unless it is an `Authorization` that a token covers |
| `BackendTester.CallerOverridesContentType` | backend_test.py:13-41 | a caller's `Content-Type`, in any case, replaces the session's `application/json`, with or without a token |
| `BackendTester.SessionHeaderKept` | backend_test.py:38-41 | a header the caller does not write is sent with the session's value, unless it is an `Authorization` that a token covers |
| `BackendTester.NoTokenNoAuthorization` | backend_test.py:42-43 | without a truthy token the harness adds no `Authorization`: the header sent is the caller's last one, or else the session's |
| `BackendTester.Dispatch` | backend_test.py:45-53 | exactly GET, POST, PUT and DELETE produce a request, sent to the given URL with the given headers; only POST and PUT carry the JSON body |
| `BackendTester.ApiTester.constructor` | backend_test.py:10-19 | starts with JSON session headers, no token and no user, zero counters and empty lists, so the invariant holds |
| `BackendTester.ApiTester.LogResult` | backend_test.py:21-33 | `testsRun` rises by exactly 1; a pass raises `testsPassed` and appends the name to `passedTests`, leaving `failedTests` alone; a failure appends exactly one record `{test, error-or-"Unknown error", response}` and leaves the pass count and the pass list alone; the invariant is preserved |
| `BackendTester.ApiTester.RunTest` | backend_test.py:36-71 | one call logs exactly one outcome. It passes exactly when the request actually sent (the method's dispatch, with the session, caller and token headers) returns the expected status. It returns the decoded payload, or `{}` after an exception. A failure appends the mismatch or exception record. The token and session are unchanged and the invariant is preserved |
| `BackendTester.ApiTester.UndispatchedVerbFails` | backend_test.py:45-71 | a method other than GET, POST, PUT and DELETE sends nothing; the call fails with the UnboundLocalError's text and `None` in its record, and returns `{}` |
| `BackendTester.ApiTester.RunResult` | backend_test.py:779 | the run succeeds exactly when no failure is recorded; under the invariant, that is exactly when every test run passed, and when `passedTests` names every test run |
| `GhostUserTester.CallHeadersFromToken` | ghost_user_test.py:34-37 | `Authorization: Bearer <token>` is set exactly when the per-call token is truthy; every other header is the session's, and without a token the headers are the session's unchanged |
| `GhostUserTester.SameHeadersAsBackend` | ghost_user_test.py:35-37 | with no caller headers, this harness sends the same headers as the backend harness holding the same token |
| `GhostUserTester.Dispatch` | ghost_user_test.py:40-43 | only GET and POST produce a request |
| `GhostUserTester.DispatchNarrowsBackend` | ghost_user_test.py:40-43 | for GET and POST, the request prepared is the backend harness's; PUT and DELETE, which the backend harness sends, prepare nothing here |
| `GhostUserTester.GhostUserBugFixTester.constructor` | ghost_user_test.py:10-16 | starts with JSON session headers, zero counters and no failures, so the invariant holds |
| `GhostUserTester.GhostUserBugFixTester.LogResult` | ghost_user_test.py:18-30 | `testsRun` rises by exactly 1; a pass raises `testsPassed`, and a failure appends exactly one record with "Unknown error" as the default error; the invariant is preserved |
| `GhostUserTester.GhostUserBugFixTester.RunTest` | ghost_user_test.py:32-61 | one call logs exactly one outcome. It passes exactly when the GET/POST request, with the per-call token's headers, returns the expected status. Any other method fails through the exception branch and returns `{}`. A mismatch returns the payload and records `Expected X, got Y`. The invariant is preserved |
| `GhostUserTester.GhostUserBugFixTester.UndispatchedVerbFails` | ghost_user_test.py:39-61 | any method but GET and POST, PUT and DELETE included, sends nothing; the call fails with the UnboundLocalError's text and `None` in its record, and returns `{}` |
| `GhostUserTester.GhostUserBugFixTester.RunResult` | ghost_user_test.py:193 | the run succeeds exactly when no failure is recorded; under the invariant, that is exactly when every test run passed |

## Left out

- The network, URL handling in `requests`, and real JSON parsing are left out. They are I/O and library code. A call's outcome is the `send` parameter applied to the prepared request, and a response carries its decode result.
- `requests.Session()`'s own default headers (User-Agent and the like) are not listed. They are the constructor parameter `libraryHeaders`.
- `Http.Lower`: folds ASCII letters only, whereas `str.lower` in `CaseInsensitiveDict` folds all of Unicode. Header names are ASCII in practice.
- Iteration order of the header dictionary is not modelled. Headers are a map keyed by lower-cased name, which holds the name as last written.
- The caller's header dict is a sequence of pairs in insertion order, so it may list a name twice. A Python dict cannot, but the last pair wins either way.
- JSON numbers are integers; floating-point JSON numbers are not represented.
- `UnboundResponseMessage` is the Python 3.11+ text of the `UnboundLocalError`. Older interpreters word it as "local variable 'response' referenced before assignment".
- All `print` output is left out. A failing `print` inside `log_result` (e.g. an emoji on a console that cannot encode it) would break the bookkeeping. The test would be counted, and `run_test`'s `except` branch would call `log_result` again. That call counts the test a second time, appends a failure record, and fails on its own `print`. This second exception is raised inside the `except` clause, so it propagates out of `run_test`. The model assumes printing succeeds.
- The success-rate line (backend_test.py:767, ghost_user_test.py:180) is left out. It is floating-point display formatting, and it divides by zero when no test ran.
- The `test_*` scenario methods, the token and user swapping they do, `uuid`/`datetime` payloads and the `main` exit codes are left out. They are script logic that calls the harness with literal data.
- comprehensive_delete_test.py and delete_chat_test.py are not part of this model. They are request-and-print scripts with no bookkeeping of their own.
