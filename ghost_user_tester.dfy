/**
  The `GhostUserBugFixTester` harness of ghost_user_test.py: the same
  bookkeeping without a list of passed names, a token passed to each call
  instead of stored, and a dispatch that knows only GET and POST.
 */
module GhostUserTester {
  import opened Http
  import opened Harness
  import BackendTester

  /** The headers `run_test` sends: a copy of the session headers, plus `Authorization` for a truthy token. */
  function CallHeaders(session: Headers, token: Option<string>): Headers
  {
    if Truthy(token) then Put(session, "Authorization", Bearer(token.value)) else session
  }

  /**
    `Authorization: Bearer <token>` is sent exactly when the call's token is
    truthy; every other header, and all of them without a token, are the session's.
   */
  lemma CallHeadersFromToken(session: Headers, token: Option<string>)
    ensures Truthy(token) ==> Lookup(CallHeaders(session, token), "Authorization") == Some(Bearer(token.value))
    ensures !Truthy(token) ==> CallHeaders(session, token) == session
    ensures forall n :: Lower(n) != Lower("Authorization") ==> Lookup(CallHeaders(session, token), n) == Lookup(session, n)
  {
  }

  /**
    With no caller headers, this harness sends what the backend harness would
    send holding the same token.
   */
  lemma SameHeadersAsBackend(session: Headers, token: Option<string>)
    ensures CallHeaders(session, token) == BackendTester.TestHeaders(session, [], token)
  {
  }

  /** Only GET and POST become a request; PUT, DELETE and anything else prepare nothing. */
  function Dispatch(verb: string, url: string, headers: Headers, data: Option<Json>): (r: Option<Request>)
    ensures r.Some? <==> verb in {"GET", "POST"}
  {
    if verb == "GET" then Some(Request("GET", url, headers, None))
    else if verb == "POST" then Some(Request("POST", url, headers, data))
    else None
  }

  /**
    Where this harness dispatches, it prepares the same request as the backend
    harness; PUT and DELETE, which the backend harness sends, end here in the
    exception branch.
   */
  lemma DispatchNarrowsBackend(verb: string, url: string, headers: Headers, data: Option<Json>)
    ensures Dispatch(verb, url, headers, data).Some? ==>
              Dispatch(verb, url, headers, data) == BackendTester.Dispatch(verb, url, headers, data)
    ensures verb in {"PUT", "DELETE"} ==>
              Dispatch(verb, url, headers, data).None? && BackendTester.Dispatch(verb, url, headers, data).Some?
  {
  }

  class GhostUserBugFixTester {
    var baseUrl: string
    var sessionHeaders: Headers
    var testsRun: nat
    var testsPassed: nat
    var failedTests: seq<Failure>

    /** The bookkeeping invariant: every logged test is either a pass or one failure record. */
    ghost predicate Valid()
      reads this
    {
      testsPassed + |failedTests| == testsRun
    }

    /** `requests.Session()` brings `libraryHeaders`; the harness adds the JSON content type. */
    constructor (libraryHeaders: Headers, baseUrl: string := BackendTester.DefaultBaseUrl)
      ensures Valid()
      ensures this.baseUrl == baseUrl && sessionHeaders == JsonSession(libraryHeaders)
      ensures testsRun == 0 && testsPassed == 0 && failedTests == []
    {
      this.baseUrl := baseUrl;
      sessionHeaders := JsonSession(libraryHeaders);
      testsRun := 0;
      testsPassed := 0;
      failedTests := [];
    }

    /** Counts one test; a pass raises `testsPassed`, a failure becomes one record. */
    method LogResult(testName: string, success: bool, responseData: Payload := PyNone, error: Option<string> := None)
      modifies this`testsRun, this`testsPassed, this`failedTests
      ensures testsRun == old(testsRun) + 1
      ensures success ==> testsPassed == old(testsPassed) + 1 && failedTests == old(failedTests)
      ensures !success ==> failedTests == old(failedTests) + [Failure(testName, ErrorText(error), responseData)]
      ensures !success ==> testsPassed == old(testsPassed)
      ensures old(Valid()) ==> Valid()
    {
      testsRun := testsRun + 1;
      if success {
        testsPassed := testsPassed + 1;
      } else {
        failedTests := failedTests + [Failure(testName, ErrorText(error), responseData)];
      }
    }

    /** What the network does with the request `run_test` prepares for this token. */
    function Exchange(send: Request -> Outcome, verb: string, endpoint: string, data: Option<Json>,
                      token: Option<string>): Outcome
      reads this
    {
      Perform(Dispatch(verb, baseUrl + "/" + endpoint, CallHeaders(sessionHeaders, token), data), send)
    }

    /**
      Runs one test as the holder of `token`. `send` stands for the session.
      Exactly one outcome is logged; the result is a pass exactly when the
      status matches.
     */
    method RunTest(send: Request -> Outcome, testName: string, verb: string, endpoint: string, expectedStatus: int,
                   data: Option<Json> := None, token: Option<string> := None)
      returns (success: bool, payload: Payload)
      modifies this`testsRun, this`testsPassed, this`failedTests
      ensures success <==> Passes(Exchange(send, verb, endpoint, data, token), expectedStatus)
      ensures payload == Returned(Exchange(send, verb, endpoint, data, token))
      ensures testsRun == old(testsRun) + 1
      ensures success ==> testsPassed == old(testsPassed) + 1 && failedTests == old(failedTests)
      ensures !success ==> failedTests == old(failedTests) + [FailureFor(testName, expectedStatus, Exchange(send, verb, endpoint, data, token))]
      ensures !success ==> testsPassed == old(testsPassed)
      ensures old(Valid()) ==> Valid()
    {
      var url := baseUrl + "/" + endpoint;
      var headers := sessionHeaders;
      if Truthy(token) {
        headers := Put(headers, "Authorization", Bearer(token.value));
      }
      var outcome: Outcome;
      if verb == "GET" {
        outcome := send(Request("GET", url, headers, None));
      } else if verb == "POST" {
        outcome := send(Request("POST", url, headers, data));
      } else {
        outcome := Raised(UnboundResponseMessage);
      }
      assert outcome == Exchange(send, verb, endpoint, data, token);
      match outcome
      case Received(response) =>
        success := response.status == expectedStatus;
        payload := Decode(response);
        if success {
          LogResult(testName, true, payload);
        } else {
          LogResult(testName, false, payload, Some(MismatchMessage(expectedStatus, response.status)));
        }
      case Raised(message) =>
        LogResult(testName, false, PyNone, Some(message));
        success, payload := false, Structured(EmptyObject);
    }

    /**
      Any method but GET and POST, PUT and DELETE included, sends nothing: the
      call ends in the UnboundLocalError, fails, returns `{}` and would record
      that error's text with `None`.
     */
    lemma UndispatchedVerbFails(send: Request -> Outcome, testName: string, verb: string, endpoint: string,
                                expectedStatus: int, data: Option<Json>, token: Option<string>)
      requires verb !in {"GET", "POST"}
      ensures Exchange(send, verb, endpoint, data, token) == Raised(UnboundResponseMessage)
      ensures !Passes(Exchange(send, verb, endpoint, data, token), expectedStatus)
      ensures Returned(Exchange(send, verb, endpoint, data, token)) == Structured(EmptyObject)
      ensures FailureFor(testName, expectedStatus, Exchange(send, verb, endpoint, data, token))
              == Failure(testName, UnboundResponseMessage, PyNone)
    {
      NothingPreparedFails(send, testName, expectedStatus);
    }

    /** The result of `run_tests`: no failure was recorded. */
    function RunResult(): (ok: bool)
      reads this
      ensures ok <==> failedTests == []
      ensures Valid() ==> (ok <==> testsPassed == testsRun)
    {
      |failedTests| == 0
    }
  }
}
