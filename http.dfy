/**
  The part of the `requests` library the two test harnesses lean on, as values:
  decoded JSON, a response (status, text, and the result of trying to decode it),
  the outcome of one network exchange, and the session's case-insensitive header
  dictionary with its `update`.
 */
module Http {

  datatype Option<+T> = None | Some(value: T)

  /** A decoded JSON document. Numbers are kept as integers. */
  datatype Json =
    | JNull
    | JBool(b: bool)
    | JNumber(n: int)
    | JString(s: string)
    | JArray(items: seq<Json>)
    | JObject(members: seq<(string, Json)>)

  /** The Python dictionary `{}` that the harnesses return after an exception. */
  const EmptyObject: Json := JObject([])

  /** What `response.json()` gave, or the raw `response.text` it fell back to. */
  datatype Payload = Structured(value: Json) | Raw(text: string)

  /**
    Python's `None` as a payload. It is the same value `response.json()` gives
    for a `null` body, so the two are one value here too.
   */
  const PyNone: Payload := Structured(JNull)

  /**
    A response as the harness sees it: the status code, the body as text, and
    the result of trying to decode that body as JSON (None when it does not decode).
   */
  datatype Response = Response(status: int, text: string, json: Option<Json>)

  /** One network exchange: either an exception (with its `str(e)`) or a response. */
  datatype Outcome = Raised(message: string) | Received(response: Response)

  /** The try-decode-else-text step of both harnesses. */
  function Decode(r: Response): Payload
  {
    match r.json
    case Some(v) => Structured(v)
    case None => Raw(r.text)
  }

  // ---------------------------------------------------------------------------
  // Case-insensitive headers

  /** ASCII lower-casing of one character. */
  function LowerChar(c: char): char
  {
    if 'A' <= c <= 'Z' then (c as int - 'A' as int + 'a' as int) as char else c
  }

  /** The key a case-insensitive dictionary files a header name under. */
  function Lower(s: string): (r: string)
    ensures |r| == |s|
    ensures forall i :: 0 <= i < |s| ==> r[i] == LowerChar(s[i])
  {
    seq(|s|, i requires 0 <= i < |s| => LowerChar(s[i]))
  }

  /**
    A header dictionary: each lower-cased name maps to the name as last written
    and its value, as `CaseInsensitiveDict` stores it.
   */
  type Headers = map<string, (string, string)>

  /** `h[name] = value`. */
  function Put(h: Headers, name: string, value: string): (r: Headers)
    ensures Lookup(r, name) == Some(value)
    ensures forall n :: Lower(n) != Lower(name) ==> Lookup(r, n) == Lookup(h, n)
  {
    h[Lower(name) := (name, value)]
  }

  /** `h.get(name)`, whatever the case of `name`. */
  function Lookup(h: Headers, name: string): Option<string>
  {
    if Lower(name) in h then Some(h[Lower(name)].1) else None
  }

  /** Whether `name` matches no pair of `items`, ignoring case. */
  predicate Absent(items: seq<(string, string)>, name: string)
  {
    forall j :: 0 <= j < |items| ==> Lower(items[j].0) != Lower(name)
  }

  /** Pair `i` is the last pair of `items` that writes `name`. */
  predicate LastWriter(items: seq<(string, string)>, name: string, i: int)
  {
    && 0 <= i < |items|
    && Lower(items[i].0) == Lower(name)
    && forall j :: i < j < |items| ==> Lower(items[j].0) != Lower(name)
  }

  /** `h` after `h.update(items)`, the pairs written in order. */
  function Overlay(h: Headers, items: seq<(string, string)>): Headers
    decreases |items|
  {
    if items == [] then h
    else
      var last := items[|items| - 1];
      Put(Overlay(h, items[..|items| - 1]), last.0, last.1)
  }

  /** A header no pair writes keeps its old value. */
  lemma {:induction false} OverlayKeeps(h: Headers, items: seq<(string, string)>, name: string)
    requires Absent(items, name)
    ensures Lookup(Overlay(h, items), name) == Lookup(h, name)
    decreases |items|
  {
    if items != [] {
      var init := items[..|items| - 1];
      assert Absent(init, name) by {
        forall j | 0 <= j < |init| ensures Lower(init[j].0) != Lower(name) {
          assert init[j] == items[j];
        }
      }
      assert Lower(items[|items| - 1].0) != Lower(name);
      OverlayKeeps(h, init, name);
    }
  }

  /** A header ends with the value of the last pair that writes it. */
  lemma {:induction false} OverlayLastWins(h: Headers, items: seq<(string, string)>, name: string, i: int)
    requires LastWriter(items, name, i)
    ensures Lookup(Overlay(h, items), name) == Some(items[i].1)
    decreases |items|
  {
    var init := items[..|items| - 1];
    if i < |items| - 1 {
      assert LastWriter(init, name, i) by {
        forall j | i < j < |init| ensures Lower(init[j].0) != Lower(name) {
          assert init[j] == items[j];
        }
      }
      OverlayLastWins(h, init, name, i);
    }
  }

  /** `CaseInsensitiveDict.update`: writes the pairs of `items` into `h` one by one. */
  method Update(h: Headers, items: seq<(string, string)>) returns (r: Headers)
    ensures r == Overlay(h, items)
    ensures forall name :: Absent(items, name) ==> Lookup(r, name) == Lookup(h, name)
    ensures forall name, i :: LastWriter(items, name, i) ==> Lookup(r, name) == Some(items[i].1)
  {
    r := h;
    var k := 0;
    while k < |items|
      invariant 0 <= k <= |items|
      invariant r == Overlay(h, items[..k])
    {
      assert items[..k + 1][..k] == items[..k];
      r := Put(r, items[k].0, items[k].1);
      k := k + 1;
    }
    assert items[..k] == items;
    forall name | Absent(items, name) ensures Lookup(r, name) == Lookup(h, name) {
      OverlayKeeps(h, items, name);
    }
    forall name, i | LastWriter(items, name, i) ensures Lookup(r, name) == Some(items[i].1) {
      OverlayLastWins(h, items, name, i);
    }
  }

  /** The request a harness hands to its session: HTTP method (verb), URL, headers and JSON body. */
  datatype Request = Request(verb: string, url: string, headers: Headers, body: Option<Json>)
}
