/**
  The `AITravelglobeAPITester` harness of backend_test.py: counters and result
  lists updated in place, a bearer token the scenarios overwrite between calls,
  and `run_test`, which sends one request and records exactly one outcome.
 */
module BackendTester {
  import opened Http
  import opened Harness

  const DefaultBaseUrl: string := "https://globetrotter-app-6.preview.emergentagent.com/api"

  /**
    The headers `run_test` sends: a copy of the session headers, updated with
    the caller's headers, then `Authorization` from a truthy token.
   */
  function TestHeaders(session: Headers, caller: seq<(string, string)>, token: Option<string>): Headers
  {
    var merged := Overlay(session, caller);
    if Truthy(token) then Put(merged, "Authorization", Bearer(token.value)) else merged
  }

  /** A truthy token always ends up as the `Authorization` header, whatever the caller passed. */
  lemma BearerWinsOverCaller(session: Headers, caller: seq<(string, string)>, token: Option<string>)
    requires Truthy(token)
    ensures Lookup(TestHeaders(session, caller, token), "Authorization") == Some(Bearer(token.value))
  {
  }

  /** A header the caller writes last (other than a token-covered `Authorization`) wins over the session's. */
  lemma CallerOverridesSession(session: Headers, caller: seq<(string, string)>, token: Option<string>, name: string, i: int)
    requires LastWriter(caller, name, i)
    requires Truthy(token) ==> Lower(name) != Lower("Authorization")
    ensures Lookup(TestHeaders(session, caller, token), name) == Some(caller[i].1)
  {
    OverlayLastWins(session, caller, name, i);
  }

  /** A caller-supplied `Content-Type`, in any case, replaces the session's `application/json`. */
  lemma CallerOverridesContentType(session: Headers, caller: seq<(string, string)>, token: Option<string>, i: int)
    requires LastWriter(caller, "Content-Type", i)
    ensures Lookup(TestHeaders(session, caller, token), "Content-Type") == Some(caller[i].1)
  {
    AuthorizationIsNotContentType();
    CallerOverridesSession(session, caller, token, "Content-Type", i);
  }

  /** A header the caller does not write keeps the session's value (save a token-covered `Authorization`). */
  lemma SessionHeaderKept(session: Headers, caller: seq<(string, string)>, token: Option<string>, name: string)
    requires Absent(caller, name)
    requires Truthy(token) ==> Lower(name) != Lower("Authorization")
    ensures Lookup(TestHeaders(session, caller, token), name) == Lookup(session, name)
  {
    OverlayKeeps(session, caller, name);
  }

  /**
    Without a truthy token the harness adds no `Authorization`: whatever is
    sent under that name came from the caller's headers or the session's.
   */
  lemma NoTokenNoAuthorization(session: Headers, caller: seq<(string, string)>, token: Option<string>)
    requires !Truthy(token)
    ensures Absent(caller, "Authorization") ==>
              Lookup(TestHeaders(session, caller, token), "Authorization") == Lookup(session, "Authorization")
    ensures forall i :: LastWriter(caller, "Authorization", i) ==>
              Lookup(TestHeaders(session, caller, token), "Authorization") == Some(caller[i].1)
  {
    if Absent(caller, "Authorization") {
      OverlayKeeps(session, caller, "Authorization");
    }
    forall i | LastWriter(caller, "Authorization", i)
      ensures Lookup(TestHeaders(session, caller, token), "Authorization") == Some(caller[i].1)
    {
      OverlayLastWins(session, caller, "Authorization", i);
    }
  }

  /**
    The method dispatch of `run_test`: GET, POST, PUT and DELETE become a request
    (only POST and PUT carry the JSON body); any other method prepares nothing.
   */
  function Dispatch(verb: string, url: string, headers: Headers, data: Option<Json>): (r: Option<Request>)
    ensures r.Some? <==> verb in {"GET", "POST", "PUT", "DELETE"}
    ensures r.Some? ==> r.value.verb == verb && r.value.url == url && r.value.headers == headers
    ensures r.Some? ==> r.value.body == (if verb in {"POST", "PUT"} then data else None)
  {
    if verb == "GET" then Some(Request("GET", url, headers, None))
    else if verb == "POST" then Some(Request("POST", url, headers, data))
    else if verb == "PUT" then Some(Request("PUT", url, headers, data))
    else if verb == "DELETE" then Some(Request("DELETE", url, headers, None))
    else None
  }

  class ApiTester {
    var baseUrl: string
    var sessionHeaders: Headers
    var token: Option<string>
    var userId: Option<string>
    var testsRun: nat
    var testsPassed: nat
    var failedTests: seq<Failure>
    var passedTests: seq<string>

    /** The bookkeeping invariant: every logged test is either a pass or one failure record. */
    ghost predicate Valid()
      reads this
    {
      && testsPassed + |failedTests| == testsRun
      && |passedTests| == testsPassed
    }

    /** `requests.Session()` brings `libraryHeaders`; the harness adds the JSON content type. */
    constructor (libraryHeaders: Headers, baseUrl: string := DefaultBaseUrl)
      ensures Valid()
      ensures this.baseUrl == baseUrl && sessionHeaders == JsonSession(libraryHeaders)
      ensures token == None && userId == None
      ensures testsRun == 0 && testsPassed == 0 && failedTests == [] && passedTests == []
    {
      this.baseUrl := baseUrl;
      sessionHeaders := JsonSession(libraryHeaders);
      token := None;
      userId := None;
      testsRun := 0;
      testsPassed := 0;
      failedTests := [];
      passedTests := [];
    }

    /** Counts one test; a pass goes to `passedTests`, a failure becomes one record. */
    method LogResult(testName: string, success: bool, responseData: Payload := PyNone, error: Option<string> := None)
      modifies this`testsRun, this`testsPassed, this`failedTests, this`passedTests
      ensures testsRun == old(testsRun) + 1
      ensures success ==> testsPassed == old(testsPassed) + 1 && passedTests == old(passedTests) + [testName]
      ensures success ==> failedTests == old(failedTests)
      ensures !success ==> failedTests == old(failedTests) + [Failure(testName, ErrorText(error), responseData)]
      ensures !success ==> testsPassed == old(testsPassed) && passedTests == old(passedTests)
      ensures old(Valid()) ==> Valid()
    {
      testsRun := testsRun + 1;
      if success {
        testsPassed := testsPassed + 1;
        passedTests := passedTests + [testName];
      } else {
        failedTests := failedTests + [Failure(testName, ErrorText(error), responseData)];
      }
    }

    /** What the network does with the request `run_test` prepares from the current state. */
    function Exchange(send: Request -> Outcome, verb: string, endpoint: string, data: Option<Json>,
                      headers: seq<(string, string)>): Outcome
      reads this
    {
      Perform(Dispatch(verb, baseUrl + "/" + endpoint, TestHeaders(sessionHeaders, headers, token), data), send)
    }

    /**
      Runs one test. `send` stands for the session: it maps the request to the
      exception it raises or the response it returns. Exactly one outcome is
      logged; the result is a pass exactly when the status matches.
     */
    method RunTest(send: Request -> Outcome, testName: string, verb: string, endpoint: string, expectedStatus: int,
                   data: Option<Json> := None, headers: seq<(string, string)> := [])
      returns (success: bool, payload: Payload)
      modifies this`testsRun, this`testsPassed, this`failedTests, this`passedTests
      ensures success <==> Passes(Exchange(send, verb, endpoint, data, headers), expectedStatus)
      ensures payload == Returned(Exchange(send, verb, endpoint, data, headers))
      ensures testsRun == old(testsRun) + 1
      ensures success ==> testsPassed == old(testsPassed) + 1 && passedTests == old(passedTests) + [testName]
      ensures success ==> failedTests == old(failedTests)
      ensures !success ==> failedTests == old(failedTests) + [FailureFor(testName, expectedStatus, Exchange(send, verb, endpoint, data, headers))]
      ensures !success ==> testsPassed == old(testsPassed) && passedTests == old(passedTests)
      ensures old(Valid()) ==> Valid()
    {
      var url := baseUrl + "/" + endpoint;
      var testHeaders := sessionHeaders;
      testHeaders := Update(testHeaders, headers);
      if Truthy(token) {
        testHeaders := Put(testHeaders, "Authorization", Bearer(token.value));
      }
      var outcome: Outcome;
      if verb == "GET" {
        outcome := send(Request("GET", url, testHeaders, None));
      } else if verb == "POST" {
        outcome := send(Request("POST", url, testHeaders, data));
      } else if verb == "PUT" {
        outcome := send(Request("PUT", url, testHeaders, data));
      } else if verb == "DELETE" {
        outcome := send(Request("DELETE", url, testHeaders, None));
      } else {
        outcome := Raised(UnboundResponseMessage);
      }
      assert outcome == Exchange(send, verb, endpoint, data, headers);
      match outcome
      case Received(response) =>
        success := response.status == expectedStatus;
        payload := Decode(response);
        if success {
          LogResult(testName, true, payload);
        } else {
          LogResult(testName, false, payload, Some(MismatchMessage(expectedStatus, response.status)));
        }
      case Raised(message) =>
        LogResult(testName, false, PyNone, Some(message));
        success, payload := false, Structured(EmptyObject);
    }

    /**
      A method other than GET, POST, PUT and DELETE sends nothing: the call
      ends in the UnboundLocalError, fails, returns `{}` and would record that
      error's text with `None`.
     */
    lemma UndispatchedVerbFails(send: Request -> Outcome, testName: string, verb: string, endpoint: string,
                                expectedStatus: int, data: Option<Json>, headers: seq<(string, string)>)
      requires verb !in {"GET", "POST", "PUT", "DELETE"}
      ensures Exchange(send, verb, endpoint, data, headers) == Raised(UnboundResponseMessage)
      ensures !Passes(Exchange(send, verb, endpoint, data, headers), expectedStatus)
      ensures Returned(Exchange(send, verb, endpoint, data, headers)) == Structured(EmptyObject)
      ensures FailureFor(testName, expectedStatus, Exchange(send, verb, endpoint, data, headers))
              == Failure(testName, UnboundResponseMessage, PyNone)
    {
      NothingPreparedFails(send, testName, expectedStatus);
    }

    /** The result of `run_all_tests`: no failure was recorded. */
    function RunResult(): (ok: bool)
      reads this
      ensures ok <==> failedTests == []
      ensures Valid() ==> (ok <==> testsPassed == testsRun)
      ensures Valid() ==> (ok <==> |passedTests| == testsRun)
    {
      |failedTests| == 0
    }
  }
}
