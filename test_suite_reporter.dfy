/** The Mocha reporter that records each test's outcome: passes and failures
    are appended in event order, and a flag remembers whether anything failed. */
module TestSuiteReporter {

  /** A recorded test: its title, whether it failed and the failure message
      (empty for a pass). */
  datatype SuiteTest = SuiteTest(title: string, failed: bool, error: string)

  /** `TSuiteOutput`: the results and whether the suite passed. */
  datatype SuiteOutput = SuiteOutput(suiteOutput: seq<SuiteTest>, testsSuitePassed: bool)

  /** A test event the runner emits. */
  datatype Event = Pass(title: string) | Fail(title: string, message: string)

  /** The entry an event records. */
  function EntryOf(e: Event): SuiteTest
  {
    match e
    case Pass(title) => SuiteTest(title, false, "")
    case Fail(title, message) => SuiteTest(title, true, message)
  }

  /** The entries a sequence of events records, in order. */
  function Entries(events: seq<Event>): (r: seq<SuiteTest>)
    ensures |r| == |events| && forall i | 0 <= i < |events| :: r[i] == EntryOf(events[i])
  {
    if events == [] then [] else Entries(events[..|events| - 1]) + [EntryOf(events[|events| - 1])]
  }

  predicate AnyFailed(events: seq<Event>)
  {
    exists i | 0 <= i < |events| :: events[i].Fail?
  }

  /** The error flag is set exactly when some recorded entry failed. */
  lemma FlagMatchesEntries(events: seq<Event>)
    ensures AnyFailed(events) <==> exists i | 0 <= i < |Entries(events)| :: Entries(events)[i].failed
  {
    var entries := Entries(events);
    if AnyFailed(events) {
      var i :| 0 <= i < |events| && events[i].Fail?;
      assert entries[i].failed;
      assert exists j | 0 <= j < |Entries(events)| :: Entries(events)[j].failed;
    } else {
      forall i | 0 <= i < |entries|
        ensures !entries[i].failed
      {
        assert !events[i].Fail?;
      }
    }
  }

  class Reporter {
    var results: seq<SuiteTest>
    var hasError: bool
    /** The events received so far. */
    ghost var events: seq<Event>

    ghost predicate Valid()
      reads this
    {
      results == Entries(events) && hasError == AnyFailed(events)
    }

    constructor()
      ensures Valid() && events == []
      ensures results == [] && !hasError
    {
      results := [];
      hasError := false;
      events := [];
    }

    /** EVENT_TEST_PASS. */
    method OnPass(title: string)
      requires Valid()
      modifies this
      ensures Valid() && events == old(events) + [Pass(title)]
      ensures results == old(results) + [SuiteTest(title, false, "")]
      ensures hasError == old(hasError)
    {
      events := events + [Pass(title)];
      results := results + [SuiteTest(title, false, "")];
      assert AnyFailed(events) <==> AnyFailed(old(events)) by {
        assert forall i | 0 <= i < |old(events)| :: events[i] == old(events)[i];
      }
    }

    /** EVENT_TEST_FAIL: the flag is set and never cleared. */
    method OnFail(title: string, message: string)
      requires Valid()
      modifies this
      ensures Valid() && events == old(events) + [Fail(title, message)]
      ensures results == old(results) + [SuiteTest(title, true, message)]
      ensures hasError
    {
      hasError := true;
      events := events + [Fail(title, message)];
      results := results + [SuiteTest(title, true, message)];
      assert events[|events| - 1].Fail?;
    }

    /** The results in event order; the suite passed exactly when no test
        failed. */
    method GetTestsResult() returns (out: SuiteOutput)
      requires Valid()
      ensures out.suiteOutput == Entries(events)
      ensures out.testsSuitePassed <==> forall i | 0 <= i < |out.suiteOutput| :: !out.suiteOutput[i].failed
    {
      FlagMatchesEntries(events);
      if hasError {
        out := SuiteOutput(results, false);
      } else {
        out := SuiteOutput(results, true);
      }
    }

    method HasError() returns (r: bool)
      requires Valid()
      ensures r <==> AnyFailed(events)
    {
      r := hasError;
    }
  }

  /** Replaying events on a fresh reporter gives the entries of those events,
      and the suite passes exactly when none of them is a failure. */
  method Replay(events: seq<Event>) returns (out: SuiteOutput)
    ensures out.suiteOutput == Entries(events)
    ensures out.testsSuitePassed <==> !AnyFailed(events)
  {
    var reporter := new Reporter();
    for i := 0 to |events|
      invariant reporter.Valid() && reporter.events == events[..i]
    {
      match events[i] {
        case Pass(title) => reporter.OnPass(title);
        case Fail(title, message) => reporter.OnFail(title, message);
      }
    }
    assert events[..|events|] == events;
    out := reporter.GetTestsResult();
    FlagMatchesEntries(events);
  }
}
