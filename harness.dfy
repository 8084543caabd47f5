/**
  What the two test harnesses have in common: Python truthiness of the optional
  token and error, the session's default headers, the bearer header, sending a
  prepared request (or failing to prepare one), and the failure record with its
  error text.
 */
module Harness {
  import opened Http
  import opened Decimal

  /** Python truthiness of an optional string: None and "" are false. */
  predicate Truthy(s: Option<string>)
  {
    s.Some? && s.value != ""
  }

  /** The session headers: the library's defaults with `Content-Type: application/json` set. */
  function JsonSession(library: Headers): (h: Headers)
    ensures Lookup(h, "Content-Type") == Some("application/json")
    ensures forall n :: Lower(n) != Lower("Content-Type") ==> Lookup(h, n) == Lookup(library, n)
  {
    Put(library, "Content-Type", "application/json")
  }

  /** The value of the `Authorization` header for a token. */
  function Bearer(token: string): string
  {
    "Bearer " + token
  }

  lemma AuthorizationIsNotContentType()
    ensures Lower("Authorization") != Lower("Content-Type")
  {
  }

  /**
    Python's `UnboundLocalError` text (3.11 and later) when a harness reads
    `response` after none of its dispatch branches assigned it.
   */
  const UnboundResponseMessage: string :=
    "cannot access local variable 'response' where it is not associated with a value"

  /**
    The outcome of one call: a prepared request goes to the network (`send`);
    a method that no branch dispatched ends in the UnboundLocalError.
   */
  function Perform(prepared: Option<Request>, send: Request -> Outcome): Outcome
  {
    match prepared
    case Some(request) => send(request)
    case None => Raised(UnboundResponseMessage)
  }

  /** The payload `run_test` returns: the decoded response, or `{}` after an exception. */
  function Returned(o: Outcome): Payload
  {
    match o
    case Received(r) => Decode(r)
    case Raised(_) => Structured(EmptyObject)
  }

  /** Whether an outcome passes: a response whose status is exactly the expected one. */
  predicate Passes(o: Outcome, expected: int)
  {
    o.Received? && o.response.status == expected
  }

  // ---------------------------------------------------------------------------
  // Failure records

  /** One entry of `failed_tests`: `{"test": ..., "error": ..., "response": ...}`. */
  datatype Failure = Failure(test: string, error: string, response: Payload)

  const UnknownError: string := "Unknown error"

  /** `str(error) if error else "Unknown error"`: a missing or empty error is replaced. */
  function ErrorText(error: Option<string>): (r: string)
    ensures r != ""
    ensures Truthy(error) ==> r == error.value
    ensures !Truthy(error) ==> r == UnknownError
  {
    if Truthy(error) then error.value else UnknownError
  }

  /** The error text of a status mismatch. */
  function MismatchMessage(expected: int, actual: int): string
  {
    "Expected " + IntToString(expected) + ", got " + IntToString(actual)
  }

  /**
    A mismatch message determines both statuses: neither rendering contains a
    comma, so the text fixes where the first number ends.
   */
  lemma MismatchMessageInjective(e1: int, a1: int, e2: int, a2: int)
    requires MismatchMessage(e1, a1) == MismatchMessage(e2, a2)
    ensures e1 == e2 && a1 == a2
  {
    var m := MismatchMessage(e1, a1);
    var s1, s2 := IntToString(e1), IntToString(e2);
    var t1, t2 := IntToString(a1), IntToString(a2);
    assert m == "Expected " + s1 + ", got " + t1;
    assert m == "Expected " + s2 + ", got " + t2;
    // the first comma of m sits right after the first number, whichever split is read
    assert m[9 + |s1|] == ',' && m[9 + |s2|] == ',';
    assert forall j :: 9 <= j < 9 + |s1| ==> m[j] == s1[j - 9] != ',';
    assert forall j :: 9 <= j < 9 + |s2| ==> m[j] == s2[j - 9] != ',';
    assert |s1| == |s2|;
    assert s1 == m[9..9 + |s1|] == s2;
    assert t1 == m[9 + |s1| + 6..] == t2;
    IntToStringInjective(e1, e2);
    IntToStringInjective(a1, a2);
  }

  /**
    The record `run_test` appends for an outcome that did not pass: the mismatch
    text with the decoded payload, or the exception's text with no response.
   */
  function FailureFor(testName: string, expected: int, o: Outcome): Failure
  {
    match o
    case Received(r) => Failure(testName, ErrorText(Some(MismatchMessage(expected, r.status))), Decode(r))
    case Raised(message) => Failure(testName, ErrorText(Some(message)), PyNone)
  }

  /**
    What a failure record tells the reader: a record whose response is not
    `None` came from a status mismatch, whose text names the expected and the
    actual status; "Unknown error" appears only for an exception. (A mismatch
    whose body is JSON `null` also records `None`, as an exception does.)
   */
  lemma FailureRecordMeaning(testName: string, expected: int, o: Outcome)
    ensures FailureFor(testName, expected, o).test == testName
    ensures FailureFor(testName, expected, o).response != PyNone ==> o.Received?
    ensures o.Raised? ==> FailureFor(testName, expected, o).response == PyNone
    ensures o.Received? ==> FailureFor(testName, expected, o).error == MismatchMessage(expected, o.response.status)
    ensures o.Raised? ==> FailureFor(testName, expected, o).error == ErrorText(Some(o.message))
    ensures FailureFor(testName, expected, o).error == UnknownError ==> o.Raised?
  {
  }

  /**
    A response that arrived: the test passes exactly on the expected status;
    the payload returned is the decoded JSON when the body decodes and the raw
    text otherwise; a mismatch record holds that same payload.
   */
  lemma ReceivedOutcome(testName: string, expected: int, o: Outcome)
    requires o.Received?
    ensures Passes(o, expected) <==> o.response.status == expected
    ensures o.response.json.Some? ==> Returned(o) == Structured(o.response.json.value)
    ensures o.response.json.None? ==> Returned(o) == Raw(o.response.text)
    ensures FailureFor(testName, expected, o).response == Returned(o)
  {
  }

  /**
    An exception: the test fails, `{}` is returned, and the record holds the
    exception's text (or "Unknown error" when that text is empty) and `None`.
   */
  lemma RaisedOutcome(testName: string, expected: int, o: Outcome)
    requires o.Raised?
    ensures !Passes(o, expected)
    ensures Returned(o) == Structured(EmptyObject)
    ensures FailureFor(testName, expected, o) == Failure(testName, ErrorText(Some(o.message)), PyNone)
    ensures o.message != "" ==> FailureFor(testName, expected, o).error == o.message
  {
  }

  /**
    Nothing prepared: the call raises the UnboundLocalError, fails, returns `{}`
    and records that error's text with `None`; the network is not used.
   */
  lemma NothingPreparedFails(send: Request -> Outcome, testName: string, expected: int)
    ensures Perform(None, send) == Raised(UnboundResponseMessage)
    ensures !Passes(Perform(None, send), expected)
    ensures Returned(Perform(None, send)) == Structured(EmptyObject)
    ensures FailureFor(testName, expected, Perform(None, send)) == Failure(testName, UnboundResponseMessage, PyNone)
  {
  }

  /** Two mismatch records with the same text for one expectation report the same status. */
  lemma MismatchRecordsDetermineStatus(testName: string, expected: int, r1: Response, r2: Response)
    requires FailureFor(testName, expected, Received(r1)).error == FailureFor(testName, expected, Received(r2)).error
    ensures r1.status == r2.status
  {
    FailureRecordMeaning(testName, expected, Received(r1));
    FailureRecordMeaning(testName, expected, Received(r2));
    MismatchMessageInjective(expected, r1.status, expected, r2.status);
  }
}
