/** The Solana runner's response types: one test result, the aggregated
    response, and the JSON shape `serde` gives them. */
module SolanaTypes {
  import opened Wrappers
  import opened Text

  /** `TTest`: a test's title, whether it passed, and its failure details. */
  datatype TTest = TTest(title: string, passed: bool, error: Option<string>)

  /** `TTestResponse`. */
  datatype TTestResponse = TTestResponse(passed: bool, error: Option<string>, tests: seq<TTest>)

  /** `TTest::ok`. */
  function OkTest(title: string): TTest
  {
    TTest(title, true, None)
  }

  /** `TTest::error`. */
  function ErrorTest(title: string, error: string): TTest
  {
    TTest(title, false, Some(error))
  }

  /** `TTestResponse::error`: the tests could not be run. */
  function ErrorResponse(message: string): TTestResponse
  {
    TTestResponse(false, Some(message), [])
  }

  const NoTestsMessage := "No tests executed."

  /** The number of failed tests (`filter(|t| !t.passed).count()`). */
  function FailedCount(tests: seq<TTest>): (n: nat)
    ensures n <= |tests|
  {
    if tests == [] then 0
    else FailedCount(tests[..|tests| - 1]) + (if tests[|tests| - 1].passed then 0 else 1)
  }

  lemma {:induction false} FailedCountZero(tests: seq<TTest>)
    ensures FailedCount(tests) == 0 <==> forall t | t in tests :: t.passed
  {
    if tests != [] {
      var init := tests[..|tests| - 1];
      FailedCountZero(init);
      assert tests == init + [tests[|tests| - 1]];
      assert forall t | t in tests :: t in init || t == tests[|tests| - 1];
    }
  }

  lemma {:induction false} FailedCountAppend(a: seq<TTest>, b: seq<TTest>)
    ensures FailedCount(a + b) == FailedCount(a) + FailedCount(b)
    decreases |b|
  {
    if b == [] {
      assert a + b == a;
    } else {
      FailedCountAppend(a, b[..|b| - 1]);
      assert (a + b)[..|a + b| - 1] == a + b[..|b| - 1];
    }
  }

  /** `From<Vec<TTest>> for TTestResponse`: an empty list is an error; otherwise
      the tests are kept as they are, the response passes exactly when every test
      passed, and a failing response says how many of how many failed. */
  function FromTests(tests: seq<TTest>): (r: TTestResponse)
    ensures tests == [] ==> r == ErrorResponse(NoTestsMessage)
    ensures tests != [] ==> r.tests == tests
    ensures tests != [] ==> (r.passed <==> forall t | t in tests :: t.passed)
    ensures tests != [] && r.passed ==> r.error == None
    ensures tests != [] && !r.passed ==>
              r.error == Some(NatToString(FailedCount(tests)) + " of " + NatToString(|tests|) + " tests failed")
  {
    if tests == [] then ErrorResponse(NoTestsMessage)
    else
      FailedCountZero(tests);
      var failed := FailedCount(tests);
      var passed := failed == 0;
      TTestResponse(passed, if passed then None else Some(NatToString(failed) + " of " + NatToString(|tests|) + " tests failed"), tests)
  }

  // ---------------------------------------------------------------------------
  // Serialisation. `skip_serializing_if = "Option::is_none"` leaves out an
  // `error` that is `None`; fields appear in declaration order.

  datatype Json = JBool(b: bool) | JString(s: string) | JArray(items: seq<Json>) | JObject(fields: seq<(string, Json)>)

  function ErrorField(error: Option<string>): seq<(string, Json)>
  {
    if error.Some? then [("error", JString(error.value))] else []
  }

  function TestJson(t: TTest): Json
  {
    JObject([("title", JString(t.title)), ("passed", JBool(t.passed))] + ErrorField(t.error))
  }

  function TestsJson(tests: seq<TTest>): (items: seq<Json>)
    ensures |items| == |tests|
    ensures forall i | 0 <= i < |tests| :: items[i] == TestJson(tests[i])
  {
    if tests == [] then [] else [TestJson(tests[0])] + TestsJson(tests[1..])
  }

  function ResponseJson(r: TTestResponse): Json
  {
    JObject([("passed", JBool(r.passed))] + ErrorField(r.error) + [("tests", JArray(TestsJson(r.tests)))])
  }

  /** Reads an object's fields back: the `error` key is present exactly when
      the value had an error. */
  function ErrorOfFields(fields: seq<(string, Json)>): Option<Option<string>>
  {
    if fields == [] then Some(None)
    else if |fields| == 1 && fields[0].0 == "error" && fields[0].1.JString? then Some(Some(fields[0].1.s))
    else None
  }

  function TestOfJson(v: Json): Option<TTest>
  {
    if v.JObject? && |v.fields| >= 2
       && v.fields[0].0 == "title" && v.fields[0].1.JString?
       && v.fields[1].0 == "passed" && v.fields[1].1.JBool?
    then
      match ErrorOfFields(v.fields[2..])
      case Some(error) => Some(TTest(v.fields[0].1.s, v.fields[1].1.b, error))
      case None => None
    else None
  }

  function TestsOfJson(items: seq<Json>): Option<seq<TTest>>
  {
    if items == [] then Some([])
    else match (TestOfJson(items[0]), TestsOfJson(items[1..]))
      case (Some(t), Some(rest)) => Some([t] + rest)
      case _ => None
  }

  function ResponseOfJson(v: Json): Option<TTestResponse>
  {
    if v.JObject? && |v.fields| >= 2
       && v.fields[0].0 == "passed" && v.fields[0].1.JBool?
       && v.fields[|v.fields| - 1].0 == "tests" && v.fields[|v.fields| - 1].1.JArray?
    then
      match (ErrorOfFields(v.fields[1..|v.fields| - 1]), TestsOfJson(v.fields[|v.fields| - 1].1.items))
      case (Some(error), Some(tests)) => Some(TTestResponse(v.fields[0].1.b, error, tests))
      case _ => None
    else None
  }

  /** A test result reads back from its JSON exactly: leaving out a `None`
      error loses nothing. */
  lemma TestJsonRoundTrip(t: TTest)
    ensures TestOfJson(TestJson(t)) == Some(t)
  {
    var fields := TestJson(t).fields;
    assert fields[2..] == ErrorField(t.error);
  }

  lemma {:induction false} TestsJsonRoundTrip(tests: seq<TTest>)
    ensures TestsOfJson(TestsJson(tests)) == Some(tests)
  {
    if tests != [] {
      TestJsonRoundTrip(tests[0]);
      TestsJsonRoundTrip(tests[1..]);
      assert TestsJson(tests)[1..] == TestsJson(tests[1..]);
      assert [tests[0]] + tests[1..] == tests;
    }
  }

  lemma ResponseJsonRoundTrip(r: TTestResponse)
    ensures ResponseOfJson(ResponseJson(r)) == Some(r)
  {
    var fields := ResponseJson(r).fields;
    assert fields[1..|fields| - 1] == ErrorField(r.error);
    TestsJsonRoundTrip(r.tests);
  }

  /** `TTest::ok` serialises to a title and `passed: true` only; `TTest::error`
      adds its message under `error`. */
  lemma OkAndErrorJson(title: string, error: string)
    ensures TestJson(OkTest(title)) == JObject([("title", JString(title)), ("passed", JBool(true))])
    ensures TestJson(ErrorTest(title, error))
            == JObject([("title", JString(title)), ("passed", JBool(false)), ("error", JString(error))])
  {
    assert [("title", JString(title)), ("passed", JBool(true))] + [] == [("title", JString(title)), ("passed", JBool(true))];
  }
  /** A failing response without an error message serialises to `passed` and
      `tests` only, and each test's `error` appears only when it has one. */
  lemma ResponseJsonScenario(first: string, second: string)
    ensures ResponseJson(TTestResponse(false, None, [OkTest(first), ErrorTest(second, "expected 3 to equal 1")]))
            == JObject([("passed", JBool(false)),
                        ("tests", JArray([JObject([("title", JString(first)), ("passed", JBool(true))]),
                                          JObject([("title", JString(second)), ("passed", JBool(false)),
                                                   ("error", JString("expected 3 to equal 1"))])]))])
  {
    OkAndErrorJson(first, "expected 3 to equal 1");
    OkAndErrorJson(second, "expected 3 to equal 1");
    var tests := [OkTest(first), ErrorTest(second, "expected 3 to equal 1")];
    assert TestsJson(tests) == [TestJson(tests[0]), TestJson(tests[1])];
    assert [("passed", JBool(false))] + ErrorField(None) == [("passed", JBool(false))];
  }
}
