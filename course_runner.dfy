/** The course runner: runs a lesson's tests inside the course's and the lesson's
    lifecycle hooks, dispatches actions, and converts between the editor's file
    array and file map.

    Hooks, test bodies and actions are arbitrary author code. A run is given what
    each call does (`behaviour`: complete, or throw an error with a message) and
    the model records the calls it makes, in order, as a trace. */
module CourseRunner {
  import opened Wrappers
  import opened EditorFiles
  import opened CourseMetadata

  /** User mode grades a submission; development mode runs one test for the
      course checker and lets its failure propagate. */
  datatype Mode = User | Development

  datatype Owner = Course | Lesson

  /** A call the runner makes; tests are numbered by their position in the
      lesson. */
  datatype Call =
    | BeforeAll(owner: Owner)
    | BeforeEach(owner: Owner, test: nat)
    | Body(test: nat)
    | AfterEach(owner: Owner, test: nat)
    | AfterAll(owner: Owner)

  datatype Outcome = Completed | Threw(message: string)

  datatype TestEntry = TestEntry(title: string, passed: bool, error: Option<string>)

  datatype TestResponse = TestResponse(passed: bool, error: Option<string>, tests: seq<TestEntry>)

  /** Everything one call of `test` depends on once its course and lesson are
      found. */
  datatype Fixture = Fixture(course: Hooks, lesson: Hooks, tests: seq<TestMeta>, mode: Mode,
                             testTitle: Option<string>, behaviour: Call -> Outcome)

  /** JavaScript truthiness of an optional string. */
  predicate Truthy(s: Option<string>)
  {
    s.Some? && s.value != ""
  }

  // ---------------------------------------------------------------------------
  // Hook blocks. Each is one `try` around two guarded hook calls: before-hooks
  // run the course's then the lesson's, after-hooks the lesson's then the
  // course's; the first error ends the block.

  datatype HookRun = HookRun(trace: seq<Call>, outcome: Outcome)

  /** `try { if (first) await first(); if (second) await second(); }` */
  function RunPair(hasFirst: bool, first: Call, hasSecond: bool, second: Call, behaviour: Call -> Outcome): HookRun
  {
    if hasFirst && behaviour(first).Threw? then HookRun([first], behaviour(first))
    else if hasFirst && hasSecond then HookRun([first, second], behaviour(second))
    else if hasFirst then HookRun([first], Completed)
    else if hasSecond then HookRun([second], behaviour(second))
    else HookRun([], Completed)
  }

  /** A block calls only hooks that exist. */
  lemma {:induction false} PairCalls(hasFirst: bool, first: Call, hasSecond: bool, second: Call, behaviour: Call -> Outcome)
    ensures forall c | c in RunPair(hasFirst, first, hasSecond, second, behaviour).trace ::
      (hasFirst && c == first) || (hasSecond && c == second)
  {
  }

  /** A block calls each hook at most once: the first whenever it exists, the
      second exactly when it exists and the first did not throw. */
  lemma {:induction false} PairCount(hasFirst: bool, first: Call, hasSecond: bool, second: Call,
                                     behaviour: Call -> Outcome, x: Call)
    requires first != second
    ensures multiset(RunPair(hasFirst, first, hasSecond, second, behaviour).trace)[x]
            == if hasFirst && x == first then 1
               else if hasSecond && x == second && !(hasFirst && behaviour(first).Threw?) then 1
               else 0
  {
    if hasFirst && hasSecond && !behaviour(first).Threw? {
      assert multiset([first, second]) == multiset{first, second};
    }
  }

  /** A block completes exactly when every hook it called completed, and its
      error is the error of a hook it called. */
  lemma {:induction false} PairOutcome(hasFirst: bool, first: Call, hasSecond: bool, second: Call, behaviour: Call -> Outcome)
    ensures var run := RunPair(hasFirst, first, hasSecond, second, behaviour);
      && (run.outcome.Completed? <==> forall c | c in run.trace :: behaviour(c).Completed?)
      && (run.outcome.Threw? ==> exists c | c in run.trace :: behaviour(c) == run.outcome)
  {
    var run := RunPair(hasFirst, first, hasSecond, second, behaviour);
    if hasFirst && hasSecond && !behaviour(first).Threw? {
      assert run.trace[1] == second;
    }
  }

  function BeforeAllRun(fx: Fixture): HookRun
  {
    RunPair(fx.course.beforeAll, BeforeAll(Course), fx.lesson.beforeAll, BeforeAll(Lesson), fx.behaviour)
  }

  function BeforeEachRun(fx: Fixture, i: nat): HookRun
  {
    RunPair(fx.course.beforeEach, BeforeEach(Course, i), fx.lesson.beforeEach, BeforeEach(Lesson, i), fx.behaviour)
  }

  function AfterEachRun(fx: Fixture, i: nat): HookRun
  {
    RunPair(fx.lesson.afterEach, AfterEach(Lesson, i), fx.course.afterEach, AfterEach(Course, i), fx.behaviour)
  }

  function AfterAllRun(fx: Fixture): HookRun
  {
    RunPair(fx.lesson.afterAll, AfterAll(Lesson), fx.course.afterAll, AfterAll(Course), fx.behaviour)
  }

  // ---------------------------------------------------------------------------
  // One test: beforeEach, the body and afterEach. The after-hooks run after
  // every attempt; their error counts only when the earlier stages passed.

  datatype Attempt = Attempt(trace: seq<Call>, failure: Option<string>)

  function AttemptTest(fx: Fixture, i: nat): Attempt
  {
    var before := BeforeEachRun(fx, i);
    var after := AfterEachRun(fx, i);
    if before.outcome.Threw? then
      Attempt(before.trace + after.trace, Some(before.outcome.message))
    else if fx.behaviour(Body(i)).Threw? then
      Attempt(before.trace + [Body(i)] + after.trace, Some(fx.behaviour(Body(i)).message))
    else if after.outcome.Threw? then
      Attempt(before.trace + [Body(i)] + after.trace, Some(after.outcome.message))
    else
      Attempt(before.trace + [Body(i)] + after.trace, None)
  }

  /** Each test's attempt, as the loop sees it. */
  function Attempts(fx: Fixture): nat -> Attempt
  {
    (i: nat) => AttemptTest(fx, i)
  }

  /** The run so far: still going, or `test` has rejected with an error. */
  datatype Progress = Running(trace: seq<Call>, response: TestResponse) | Rejected(trace: seq<Call>, message: string)

  function Record(r: TestResponse, e: TestEntry): TestResponse
  {
    r.(tests := r.tests + [e], passed := r.passed && e.passed)
  }

  /** Development mode skips every test but the one titled `testTitle`. */
  predicate Selected(fx: Fixture, i: nat)
    requires i < |fx.tests|
  {
    fx.mode == User || fx.testTitle == Some(fx.tests[i].title)
  }

  /** The entry test `i` records in user mode: the first failure, if any. */
  function EntryOf(fx: Fixture, attempts: nat -> Attempt, i: nat): TestEntry
    requires i < |fx.tests|
  {
    TestEntry(fx.tests[i].title, attempts(i).failure.None?, attempts(i).failure)
  }

  /** One iteration of the loop over the tests. */
  function TestStep(fx: Fixture, attempts: nat -> Attempt, p: Progress, i: nat): Progress
    requires i < |fx.tests|
  {
    if p.Rejected? || !Selected(fx, i) then p
    else
      var attempt := attempts(i);
      var trace := p.trace + attempt.trace;
      if attempt.failure.None? then Running(trace, Record(p.response, EntryOf(fx, attempts, i)))
      else if fx.mode == Development then Rejected(trace, attempt.failure.value)
      else Running(trace, Record(p.response, EntryOf(fx, attempts, i)))
  }

  /** The first `n` iterations of the loop. */
  function RunTests(fx: Fixture, attempts: nat -> Attempt, start: Progress, n: nat): Progress
    requires n <= |fx.tests|
  {
    if n == 0 then start else TestStep(fx, attempts, RunTests(fx, attempts, start, n - 1), n - 1)
  }

  /** The state after the before-all hooks. */
  function Started(fx: Fixture): Progress
  {
    var before := BeforeAllRun(fx);
    if before.outcome.Completed? then Running(before.trace, TestResponse(true, None, []))
    else
      var after := AfterAllRun(fx);
      if fx.mode == Development then Rejected(before.trace + after.trace, before.outcome.message)
      else Running(before.trace + after.trace, TestResponse(false, Some(before.outcome.message), []))
  }

  /** The after-all hooks at the end of the run. */
  function Finished(fx: Fixture, p: Progress): Progress
  {
    if p.Rejected? then p
    else
      var after := AfterAllRun(fx);
      if after.outcome.Completed? then Running(p.trace + after.trace, p.response)
      else if fx.mode == Development then Rejected(p.trace + after.trace, after.outcome.message)
      else Running(p.trace + after.trace, p.response.(error := Some(after.outcome.message), passed := false))
  }

  /** The whole lifecycle. The run stops after the before-all hooks only when the
      recorded error is truthy, as `if (result.error)` tests it. */
  function Lifecycle(fx: Fixture): Progress
  {
    var start := Started(fx);
    if start.Rejected? || Truthy(start.response.error) then start
    else Finished(fx, RunTests(fx, Attempts(fx), start, |fx.tests|))
  }

  function Settle(p: Progress): (Result<TestResponse>, seq<Call>)
  {
    match p
    case Running(trace, response) => (Ok(response), trace)
    case Rejected(trace, message) => (Err(message), trace)
  }

  lemma {:induction false} RejectedStays(fx: Fixture, attempts: nat -> Attempt, start: Progress, k: nat, n: nat)
    requires k <= n <= |fx.tests|
    requires RunTests(fx, attempts, start, k).Rejected?
    ensures RunTests(fx, attempts, start, n) == RunTests(fx, attempts, start, k)
    decreases n
  {
    if n > k {
      RejectedStays(fx, attempts, start, k, n - 1);
    }
  }

  // ---------------------------------------------------------------------------
  // Properties of the lifecycle

  /** A call made by test `i`: one of its hooks or its body. */
  predicate OfTest(c: Call, i: nat)
  {
    (c.BeforeEach? || c.Body? || c.AfterEach?) && c.test == i
  }

  lemma {:induction false} TraceJoin(before: seq<Call>, after: seq<Call>, i: nat)
    requires forall c | c in before :: OfTest(c, i)
    requires forall c | c in after :: OfTest(c, i)
    ensures forall c | c in before + [Body(i)] + after :: OfTest(c, i)
    ensures forall c | c in before + after :: OfTest(c, i)
  {
  }

  lemma {:induction false} AttemptCalls(fx: Fixture, i: nat)
    ensures forall c | c in AttemptTest(fx, i).trace :: OfTest(c, i)
  {
    PairCalls(fx.course.beforeEach, BeforeEach(Course, i), fx.lesson.beforeEach, BeforeEach(Lesson, i), fx.behaviour);
    PairCalls(fx.lesson.afterEach, AfterEach(Lesson, i), fx.course.afterEach, AfterEach(Course, i), fx.behaviour);
    TraceJoin(BeforeEachRun(fx, i).trace, AfterEachRun(fx, i).trace, i);
  }

  /** Within one attempt the lesson's afterEach runs exactly once when it exists,
      even when a stage threw, and the body runs exactly when the before-hooks
      completed. */
  lemma {:induction false} AttemptCounts(fx: Fixture, i: nat)
    ensures multiset(AttemptTest(fx, i).trace)[AfterEach(Lesson, i)] == if fx.lesson.afterEach then 1 else 0
    ensures multiset(AttemptTest(fx, i).trace)[Body(i)]
            == if BeforeEachRun(fx, i).outcome.Completed? then 1 else 0
  {
    AttemptTraceSplit(fx, i);
    var before := BeforeEachRun(fx, i).trace;
    var body := if BeforeEachRun(fx, i).outcome.Completed? then [Body(i)] else [];
    var after := AfterEachRun(fx, i).trace;
    assert multiset(before + body + after) == multiset(before) + multiset(body) + multiset(after);
    PairCount(fx.course.beforeEach, BeforeEach(Course, i), fx.lesson.beforeEach, BeforeEach(Lesson, i), fx.behaviour, AfterEach(Lesson, i));
    PairCount(fx.course.beforeEach, BeforeEach(Course, i), fx.lesson.beforeEach, BeforeEach(Lesson, i), fx.behaviour, Body(i));
    PairCount(fx.lesson.afterEach, AfterEach(Lesson, i), fx.course.afterEach, AfterEach(Course, i), fx.behaviour, AfterEach(Lesson, i));
    PairCount(fx.lesson.afterEach, AfterEach(Lesson, i), fx.course.afterEach, AfterEach(Course, i), fx.behaviour, Body(i));
  }

  /** An attempt's calls: the before-hooks, the body when they completed, then
      the after-hooks. */
  lemma {:induction false} AttemptTraceSplit(fx: Fixture, i: nat)
    ensures AttemptTest(fx, i).trace == BeforeEachRun(fx, i).trace
      + (if BeforeEachRun(fx, i).outcome.Completed? then [Body(i)] else []) + AfterEachRun(fx, i).trace
  {
    if BeforeEachRun(fx, i).outcome.Threw? {
      assert BeforeEachRun(fx, i).trace + [] == BeforeEachRun(fx, i).trace;
    }
  }

  /** Every call in an attempt is one of test `j`'s calls. */
  ghost predicate OwnCallsOf(attempt: Attempt, j: nat)
  {
    forall c | c in attempt.trace :: OfTest(c, j)
  }

  /** Every call in a test's attempt is one of that test's calls. */
  ghost predicate AttemptsOwnCalls(attempts: nat -> Attempt, n: nat)
  {
    forall j | 0 <= j < n :: OwnCallsOf(attempts(j), j)
  }

  /** The attempts of the selected tests among the first `n`. */
  function AttemptsTrace(fx: Fixture, attempts: nat -> Attempt, n: nat): seq<Call>
    requires n <= |fx.tests|
  {
    if n == 0 then [] else AttemptsTrace(fx, attempts, n - 1) + (if Selected(fx, n - 1) then attempts(n - 1).trace else [])
  }

  /** The entries of the selected tests among the first `n`. */
  function EntriesOf(fx: Fixture, attempts: nat -> Attempt, n: nat): seq<TestEntry>
    requires n <= |fx.tests|
  {
    if n == 0 then [] else EntriesOf(fx, attempts, n - 1) + (if Selected(fx, n - 1) then [EntryOf(fx, attempts, n - 1)] else [])
  }

  predicate NoneFailed(fx: Fixture, attempts: nat -> Attempt, n: nat)
    requires n <= |fx.tests|
  {
    forall i | 0 <= i < n :: Selected(fx, i) ==> attempts(i).failure.None?
  }

  /** A call a test makes: a before-hook, the body or an after-hook of a selected
      test among the first `n`. */
  predicate TestCall(fx: Fixture, c: Call, n: nat)
    requires n <= |fx.tests|
  {
    (c.BeforeEach? || c.Body? || c.AfterEach?) && c.test < n && Selected(fx, c.test)
  }

  /** The loop keeps running unless development mode meets a failure; while it
      runs it has recorded the selected tests' attempts and entries, and `passed`
      says whether all of them passed. */
  lemma {:induction false} RunTestsShape(fx: Fixture, attempts: nat -> Attempt, start: Progress, n: nat)
    requires n <= |fx.tests| && start.Running?
    ensures var p := RunTests(fx, attempts, start, n);
      && (p.Running? <==> fx.mode == User || NoneFailed(fx, attempts, n))
      && (p.Running? ==>
            && p.trace == start.trace + AttemptsTrace(fx, attempts, n)
            && p.response.tests == start.response.tests + EntriesOf(fx, attempts, n)
            && p.response.error == start.response.error
            && p.response.passed == (start.response.passed && NoneFailed(fx, attempts, n)))
  {
    if n > 0 {
      RunTestsShape(fx, attempts, start, n - 1);
      var q := RunTests(fx, attempts, start, n - 1);
      if q.Rejected? {
        RejectedStays(fx, attempts, start, n - 1, n);
      }
      assert NoneFailed(fx, attempts, n) <==>
        NoneFailed(fx, attempts, n - 1) && (Selected(fx, n - 1) ==> attempts(n - 1).failure.None?);
    }
  }

  /** Every call the loop makes belongs to a selected test. */
  lemma {:induction false} RunTestsCalls(fx: Fixture, attempts: nat -> Attempt, start: Progress, n: nat)
    requires n <= |fx.tests| && start.Running? && AttemptsOwnCalls(attempts, n)
    ensures forall c | c in RunTests(fx, attempts, start, n).trace :: c in start.trace || TestCall(fx, c, n)
  {
    if n > 0 {
      RunTestsCalls(fx, attempts, start, n - 1);
    }
  }

  /** In user mode every test is selected and records its entry; `passed` after
      the loop is whether every entry passed. */
  lemma {:induction false} UserEntries(fx: Fixture, attempts: nat -> Attempt, n: nat)
    requires n <= |fx.tests| && fx.mode == User
    ensures |EntriesOf(fx, attempts, n)| == n
    ensures forall i | 0 <= i < n :: EntriesOf(fx, attempts, n)[i] == EntryOf(fx, attempts, i)
    ensures NoneFailed(fx, attempts, n) <==> forall e | e in EntriesOf(fx, attempts, n) :: e.passed
  {
    UserEntryList(fx, attempts, n);
    var entries := EntriesOf(fx, attempts, n);
    if NoneFailed(fx, attempts, n) {
      forall e | e in entries
        ensures e.passed
      {
        var k :| 0 <= k < n && entries[k] == e;
        assert Selected(fx, k);
      }
    } else {
      var i :| 0 <= i < n && Selected(fx, i) && attempts(i).failure.Some?;
      assert !entries[i].passed;
    }
  }

  /** In user mode every test has its entry, at its own index. */
  lemma {:induction false} UserEntryList(fx: Fixture, attempts: nat -> Attempt, n: nat)
    requires n <= |fx.tests| && fx.mode == User
    ensures |EntriesOf(fx, attempts, n)| == n
    ensures forall i | 0 <= i < n :: EntriesOf(fx, attempts, n)[i] == EntryOf(fx, attempts, i)
  {
    if n > 0 {
      UserEntryList(fx, attempts, n - 1);
      assert Selected(fx, n - 1);
    }
  }

  /** In development mode a loop that keeps running has recorded only passed
      entries of tests titled `testTitle`. */
  lemma {:induction false} DevelopmentEntries(fx: Fixture, attempts: nat -> Attempt, n: nat)
    requires n <= |fx.tests| && fx.mode == Development && NoneFailed(fx, attempts, n)
    ensures forall e | e in EntriesOf(fx, attempts, n) :: e.passed && Some(e.title) == fx.testTitle
  {
    if n > 0 {
      DevelopmentEntries(fx, attempts, n - 1);
    }
  }

  /** The traces of the first `n` attempts, one after the other. */
  function Traces(attempts: nat -> Attempt, n: nat): seq<Call>
  {
    if n == 0 then [] else Traces(attempts, n - 1) + attempts(n - 1).trace
  }

  /** In user mode the loop's trace is every test's attempt in turn. */
  lemma {:induction false} UserTraces(fx: Fixture, attempts: nat -> Attempt, n: nat)
    requires n <= |fx.tests| && fx.mode == User
    ensures AttemptsTrace(fx, attempts, n) == Traces(attempts, n)
  {
    if n > 0 {
      UserTraces(fx, attempts, n - 1);
      assert Selected(fx, n - 1);
    }
  }

  /** The calls of test `i` among the attempts of the first `n` tests are those of
      its own attempt; tests from `n` on make none. */
  lemma {:induction false} AttemptsCount(fx: Fixture, attempts: nat -> Attempt, n: nat, i: nat, x: Call)
    requires n <= |fx.tests| && i < n && fx.mode == User && OfTest(x, i) && AttemptsOwnCalls(attempts, n)
    ensures multiset(AttemptsTrace(fx, attempts, n))[x] == multiset(attempts(i).trace)[x]
  {
    UserTraces(fx, attempts, n);
    TracesCount(attempts, n, i, x);
  }

  lemma CountAppend(a: seq<Call>, b: seq<Call>, x: Call)
    ensures multiset(a + b)[x] == multiset(a)[x] + multiset(b)[x]
  {
    assert multiset(a + b) == multiset(a) + multiset(b);
  }

  lemma {:induction false} TracesCount(attempts: nat -> Attempt, n: nat, i: nat, x: Call)
    requires i < n && OfTest(x, i) && AttemptsOwnCalls(attempts, n)
    ensures multiset(Traces(attempts, n))[x] == multiset(attempts(i).trace)[x]
  {
    var prev := Traces(attempts, n - 1);
    var last := attempts(n - 1).trace;
    assert multiset(Traces(attempts, n))[x] == multiset(prev)[x] + multiset(last)[x] by {
      assert Traces(attempts, n) == prev + last;
      CountAppend(prev, last, x);
    }
    if n - 1 == i {
      assert multiset(prev)[x] == 0 by {
        TracesNone(attempts, n - 1, x);
      }
    } else {
      TracesCount(attempts, n - 1, i, x);
      assert multiset(last)[x] == 0 by {
        assert OwnCallsOf(attempts(n - 1), n - 1);
        assert x !in last;
      }
    }
  }

  lemma {:induction false} TracesNone(attempts: nat -> Attempt, n: nat, x: Call)
    requires (x.BeforeEach? || x.Body? || x.AfterEach?) && x.test >= n
    requires AttemptsOwnCalls(attempts, n)
    ensures x !in Traces(attempts, n)
  {
    if n > 0 {
      TracesNone(attempts, n - 1, x);
      assert OwnCallsOf(attempts(n - 1), n - 1);
    }
  }

  lemma {:induction false} OwnCalls(fx: Fixture, n: nat)
    ensures AttemptsOwnCalls(Attempts(fx), n)
  {
    forall j | 0 <= j < n {
      AttemptCalls(fx, j);
    }
  }

  /** The `passed` invariant: in user mode the run always answers, and `passed`
      holds exactly when there is no top-level error and every entry passed. */
  lemma {:induction false} PassedInvariant(fx: Fixture)
    requires fx.mode == User
    ensures Lifecycle(fx).Running?
    ensures var response := Lifecycle(fx).response;
      response.passed <==> response.error.None? && forall e | e in response.tests :: e.passed
  {
    var start := Started(fx);
    if !Truthy(start.response.error) {
      RunTestsShape(fx, Attempts(fx), start, |fx.tests|);
      UserEntries(fx, Attempts(fx), |fx.tests|);
    }
  }

  /** Once the before-all hooks complete, the run is the loop from a passing
      response followed by the after-all hooks. */
  lemma LifecycleAfterStart(fx: Fixture)
    requires BeforeAllRun(fx).outcome.Completed?
    ensures Lifecycle(fx) == Finished(fx, RunTests(fx, Attempts(fx), Running(BeforeAllRun(fx).trace, TestResponse(true, None, [])), |fx.tests|))
  {
  }

  /** The after-all hooks append their calls and keep the entries. */
  lemma FinishedKeepsTests(fx: Fixture, p: Progress)
    requires fx.mode == User && p.Running?
    ensures Finished(fx, p).Running?
    ensures Finished(fx, p).trace == p.trace + AfterAllRun(fx).trace
    ensures Finished(fx, p).response.tests == p.response.tests
  {
  }

  /** In user mode, once the before-all hooks have completed, each test adds
      exactly one entry, in declaration order: the first failing stage gives a
      failed entry with that stage's message, otherwise a passed one. */
  lemma {:induction false} OneEntryPerTest(fx: Fixture)
    requires fx.mode == User
    requires BeforeAllRun(fx).outcome.Completed?
    ensures Lifecycle(fx).Running?
    ensures var tests := Lifecycle(fx).response.tests;
      && |tests| == |fx.tests|
      && forall i | 0 <= i < |fx.tests| ::
           && tests[i].title == fx.tests[i].title
           && (tests[i].passed <==> AttemptTest(fx, i).failure.None?)
           && tests[i].error == AttemptTest(fx, i).failure
  {
    var n := |fx.tests|;
    var start := Running(BeforeAllRun(fx).trace, TestResponse(true, None, []));
    var p := RunTests(fx, Attempts(fx), start, n);
    assert p.Running? && p.response.tests == EntriesOf(fx, Attempts(fx), n) by {
      RunTestsShape(fx, Attempts(fx), start, n);
    }
    assert Lifecycle(fx).Running? && Lifecycle(fx).response.tests == p.response.tests by {
      LifecycleAfterStart(fx);
      FinishedKeepsTests(fx, p);
    }
    UserEntries(fx, Attempts(fx), n);
    forall i | 0 <= i < n
      ensures EntryOf(fx, Attempts(fx), i) == TestEntry(fx.tests[i].title, AttemptTest(fx, i).failure.None?, AttemptTest(fx, i).failure)
    {
      assert Attempts(fx)(i) == AttemptTest(fx, i);
    }
  }

  /** A failing before-all hook: user mode answers `passed: false`, no tests and
      the error's message; no beforeEach, body or afterEach runs; the after-all
      hooks run, the lesson's once. (An empty message is not truthy, so the run
      would go on to the tests; that case is excluded here.) */
  lemma {:induction false} BeforeAllFailure(fx: Fixture, msg: string)
    requires fx.mode == User && msg != ""
    requires BeforeAllRun(fx).outcome == Threw(msg)
    ensures Lifecycle(fx) == Running(BeforeAllRun(fx).trace
                                     + AfterAllRun(fx).trace,
                                     TestResponse(false, Some(msg), []))
    ensures forall c | c in Lifecycle(fx).trace :: c.BeforeAll? || c.AfterAll?
    ensures multiset(Lifecycle(fx).trace)[AfterAll(Lesson)] == if fx.lesson.afterAll then 1 else 0
  {
    var before := BeforeAllRun(fx).trace;
    var after := AfterAllRun(fx).trace;
    assert Lifecycle(fx) == Running(before + after, TestResponse(false, Some(msg), [])) by {
      assert Started(fx) == Running(before + after, TestResponse(false, Some(msg), []));
    }
    assert forall c: Call | c in before + after :: c.BeforeAll? || c.AfterAll? by {
      PairCalls(fx.course.beforeAll, BeforeAll(Course), fx.lesson.beforeAll, BeforeAll(Lesson), fx.behaviour);
      PairCalls(fx.lesson.afterAll, AfterAll(Lesson), fx.course.afterAll, AfterAll(Course), fx.behaviour);
    }
    assert multiset(before + after)[AfterAll(Lesson)] == if fx.lesson.afterAll then 1 else 0 by {
      PairCount(fx.course.beforeAll, BeforeAll(Course), fx.lesson.beforeAll, BeforeAll(Lesson), fx.behaviour, AfterAll(Lesson));
      PairCount(fx.lesson.afterAll, AfterAll(Lesson), fx.course.afterAll, AfterAll(Course), fx.behaviour, AfterAll(Lesson));
      assert multiset(before + after) == multiset(before) + multiset(after);
    }
  }

  /** Hook call counts in user mode, when the before-all hooks completed: the
      lesson's afterEach runs once per test even when the test fails, the body
      runs once exactly when its before-hooks completed, and the lesson's
      afterAll runs once per call. */
  lemma {:induction false} HookCallCounts(fx: Fixture, i: nat)
    requires fx.mode == User && i < |fx.tests|
    requires BeforeAllRun(fx).outcome.Completed?
    ensures Lifecycle(fx).Running?
    ensures var trace := Lifecycle(fx).trace;
      && multiset(trace)[AfterEach(Lesson, i)] == (if fx.lesson.afterEach then 1 else 0)
      && multiset(trace)[Body(i)] == (if BeforeEachRun(fx, i).outcome.Completed? then 1 else 0)
      && multiset(trace)[AfterAll(Lesson)] == (if fx.lesson.afterAll then 1 else 0)
  {
    var n := |fx.tests|;
    var before := BeforeAllRun(fx).trace;
    var start := Running(before, TestResponse(true, None, []));
    var loop := AttemptsTrace(fx, Attempts(fx), n);
    var after := AfterAllRun(fx).trace;
    assert Lifecycle(fx).Running? && Lifecycle(fx).trace == before + loop + after by {
      var p := RunTests(fx, Attempts(fx), start, n);
      RunTestsShape(fx, Attempts(fx), start, n);
      LifecycleAfterStart(fx);
      FinishedKeepsTests(fx, p);
    }
    assert multiset(before + loop + after) == multiset(before) + multiset(loop) + multiset(after);
    assert multiset(before)[AfterEach(Lesson, i)] == 0 && multiset(before)[Body(i)] == 0
        && multiset(before)[AfterAll(Lesson)] == 0 by {
      PairCount(fx.course.beforeAll, BeforeAll(Course), fx.lesson.beforeAll, BeforeAll(Lesson), fx.behaviour, AfterEach(Lesson, i));
      PairCount(fx.course.beforeAll, BeforeAll(Course), fx.lesson.beforeAll, BeforeAll(Lesson), fx.behaviour, Body(i));
      PairCount(fx.course.beforeAll, BeforeAll(Course), fx.lesson.beforeAll, BeforeAll(Lesson), fx.behaviour, AfterAll(Lesson));
    }
    assert multiset(after)[AfterEach(Lesson, i)] == 0 && multiset(after)[Body(i)] == 0
        && multiset(after)[AfterAll(Lesson)] == (if fx.lesson.afterAll then 1 else 0) by {
      PairCount(fx.lesson.afterAll, AfterAll(Lesson), fx.course.afterAll, AfterAll(Course), fx.behaviour, AfterEach(Lesson, i));
      PairCount(fx.lesson.afterAll, AfterAll(Lesson), fx.course.afterAll, AfterAll(Course), fx.behaviour, Body(i));
      PairCount(fx.lesson.afterAll, AfterAll(Lesson), fx.course.afterAll, AfterAll(Course), fx.behaviour, AfterAll(Lesson));
    }
    LoopCounts(fx, i);
  }

  /** The loop's share of the calls: test `i`'s lesson afterEach and body as in
      its own attempt, and no after-all hook. */
  lemma {:induction false} LoopCounts(fx: Fixture, i: nat)
    requires fx.mode == User && i < |fx.tests|
    ensures var loop := AttemptsTrace(fx, Attempts(fx), |fx.tests|);
      && multiset(loop)[AfterEach(Lesson, i)] == (if fx.lesson.afterEach then 1 else 0)
      && multiset(loop)[Body(i)] == (if BeforeEachRun(fx, i).outcome.Completed? then 1 else 0)
      && multiset(loop)[AfterAll(Lesson)] == 0
  {
    var n := |fx.tests|;
    OwnCalls(fx, n);
    AttemptsCount(fx, Attempts(fx), n, i, AfterEach(Lesson, i));
    AttemptsCount(fx, Attempts(fx), n, i, Body(i));
    AttemptCounts(fx, i);
    LoopHasNoAfterAll(fx, Attempts(fx), n);
  }

  lemma {:induction false} LoopHasNoAfterAll(fx: Fixture, attempts: nat -> Attempt, n: nat)
    requires n <= |fx.tests| && AttemptsOwnCalls(attempts, n)
    ensures AfterAll(Lesson) !in AttemptsTrace(fx, attempts, n)
  {
    if n > 0 {
      LoopHasNoAfterAll(fx, attempts, n - 1);
      assert AfterAll(Lesson) !in attempts(n - 1).trace;
    }
  }

  /** In development mode only tests titled `testTitle` run any hook or body,
      and a run that answers has recorded only passed entries of such tests:
      every failure was rejected instead. */
  lemma {:induction false} DevelopmentRunsOnlyTitled(fx: Fixture)
    requires fx.mode == Development
    ensures forall c | c in Lifecycle(fx).trace && (c.BeforeEach? || c.Body? || c.AfterEach?) ::
      c.test < |fx.tests| && Some(fx.tests[c.test].title) == fx.testTitle
    ensures Lifecycle(fx).Running? ==>
      var response := Lifecycle(fx).response;
      && response.passed && response.error.None?
      && forall e | e in response.tests :: e.passed && Some(e.title) == fx.testTitle
  {
    var start := Started(fx);
    var n := |fx.tests|;
    PairCalls(fx.course.beforeAll, BeforeAll(Course), fx.lesson.beforeAll, BeforeAll(Lesson), fx.behaviour);
    PairCalls(fx.lesson.afterAll, AfterAll(Lesson), fx.course.afterAll, AfterAll(Course), fx.behaviour);
    if start.Running? {
      OwnCalls(fx, n);
      RunTestsShape(fx, Attempts(fx), start, n);
      RunTestsCalls(fx, Attempts(fx), start, n);
      var p := RunTests(fx, Attempts(fx), start, n);
      if p.Running? {
        DevelopmentEntries(fx, Attempts(fx), n);
      }
    }
  }

  /** The hook `c` if the class defines it. */
  function Present(has: bool, c: Call): seq<Call>
  {
    if has then [c] else []
  }

  /** When every hook completes, a block calls each hook that exists, in order. */
  lemma {:induction false} PairAllComplete(hasFirst: bool, first: Call, hasSecond: bool, second: Call, behaviour: Call -> Outcome)
    requires forall c :: behaviour(c) == Completed
    ensures RunPair(hasFirst, first, hasSecond, second, behaviour)
            == HookRun(Present(hasFirst, first) + Present(hasSecond, second), Completed)
  {
    if !hasFirst && hasSecond {
      assert [] + [second] == [second];
    }
  }

  /** The calls of test `i` when nothing throws. */
  function FullAttempt(fx: Fixture, i: nat): seq<Call>
  {
    Present(fx.course.beforeEach, BeforeEach(Course, i)) + Present(fx.lesson.beforeEach, BeforeEach(Lesson, i))
    + [Body(i)]
    + Present(fx.lesson.afterEach, AfterEach(Lesson, i)) + Present(fx.course.afterEach, AfterEach(Course, i))
  }

  /** The calls of the first `n` tests when nothing throws. */
  function FullAttempts(fx: Fixture, n: nat): seq<Call>
  {
    if n == 0 then [] else FullAttempts(fx, n - 1) + FullAttempt(fx, n - 1)
  }

  lemma {:induction false} AttemptAllComplete(fx: Fixture, i: nat)
    requires forall c :: fx.behaviour(c) == Completed
    ensures Attempts(fx)(i) == Attempt(FullAttempt(fx, i), None)
  {
    PairAllComplete(fx.course.beforeEach, BeforeEach(Course, i), fx.lesson.beforeEach, BeforeEach(Lesson, i), fx.behaviour);
    PairAllComplete(fx.lesson.afterEach, AfterEach(Lesson, i), fx.course.afterEach, AfterEach(Course, i), fx.behaviour);
    AttemptTraceSplit(fx, i);
  }

  lemma {:induction false} FullLoop(fx: Fixture, attempts: nat -> Attempt, n: nat)
    requires fx.mode == User && n <= |fx.tests|
    requires forall i :: 0 <= i < n ==> attempts(i) == Attempt(FullAttempt(fx, i), None)
    ensures AttemptsTrace(fx, attempts, n) == FullAttempts(fx, n)
  {
    if n > 0 {
      FullLoop(fx, attempts, n - 1);
    }
  }

  /** The entries of a run in which every test passes. */
  function AllPassed(tests: seq<TestMeta>): seq<TestEntry>
  {
    seq(|tests|, i requires 0 <= i < |tests| => TestEntry(tests[i].title, true, None))
  }

  lemma {:induction false} LoopAllComplete(fx: Fixture, trace: seq<Call>)
    requires fx.mode == User
    requires forall c :: fx.behaviour(c) == Completed
    ensures RunTests(fx, Attempts(fx), Running(trace, TestResponse(true, None, [])), |fx.tests|)
            == Running(trace + FullAttempts(fx, |fx.tests|), TestResponse(true, None, AllPassed(fx.tests)))
  {
    var n := |fx.tests|;
    var attempts := Attempts(fx);
    var start := Running(trace, TestResponse(true, None, []));
    forall i | 0 <= i < n
      ensures attempts(i) == Attempt(FullAttempt(fx, i), None)
    {
      AttemptAllComplete(fx, i);
    }
    RunTestsShape(fx, attempts, start, n);
    FullLoop(fx, attempts, n);
    UserEntries(fx, attempts, n);
    assert NoneFailed(fx, attempts, n);
  }

  /** Hook blocks that complete leave the loop's response as it is. */
  lemma CompletedHooks(fx: Fixture, before: seq<Call>, loop: seq<Call>, after: seq<Call>, response: TestResponse)
    requires fx.mode == User
    requires BeforeAllRun(fx) == HookRun(before, Completed)
    requires AfterAllRun(fx) == HookRun(after, Completed)
    requires RunTests(fx, Attempts(fx), Running(before, TestResponse(true, None, [])), |fx.tests|) == Running(before + loop, response)
    ensures Lifecycle(fx) == Running(before + loop + after, response)
  {
    LifecycleAfterStart(fx);
  }

  /** When every hook and body completes, user mode passes every test, in order,
      and the calls are: the course's then the lesson's beforeAll; for each test
      the course's then the lesson's beforeEach, the body, the lesson's then the
      course's afterEach; the lesson's then the course's afterAll. */
  lemma {:induction false} AllComplete(fx: Fixture)
    requires fx.mode == User
    requires forall c :: fx.behaviour(c) == Completed
    ensures Lifecycle(fx) == Running(
      Present(fx.course.beforeAll, BeforeAll(Course)) + Present(fx.lesson.beforeAll, BeforeAll(Lesson))
      + FullAttempts(fx, |fx.tests|)
      + Present(fx.lesson.afterAll, AfterAll(Lesson)) + Present(fx.course.afterAll, AfterAll(Course)),
      TestResponse(true, None, AllPassed(fx.tests)))
  {
    var before := Present(fx.course.beforeAll, BeforeAll(Course)) + Present(fx.lesson.beforeAll, BeforeAll(Lesson));
    var after := Present(fx.lesson.afterAll, AfterAll(Lesson)) + Present(fx.course.afterAll, AfterAll(Course));
    var loop := FullAttempts(fx, |fx.tests|);
    HookBlocksComplete(fx);
    LoopAllComplete(fx, before);
    CompletedHooks(fx, before, loop, after, TestResponse(true, None, AllPassed(fx.tests)));
    assert before + loop + after
        == Present(fx.course.beforeAll, BeforeAll(Course)) + Present(fx.lesson.beforeAll, BeforeAll(Lesson))
           + loop + Present(fx.lesson.afterAll, AfterAll(Lesson)) + Present(fx.course.afterAll, AfterAll(Course));
  }

  /** Both hook blocks complete, calling every hook that is present. */
  lemma HookBlocksComplete(fx: Fixture)
    requires forall c :: fx.behaviour(c) == Completed
    ensures BeforeAllRun(fx) == HookRun(Present(fx.course.beforeAll, BeforeAll(Course)) + Present(fx.lesson.beforeAll, BeforeAll(Lesson)), Completed)
    ensures AfterAllRun(fx) == HookRun(Present(fx.lesson.afterAll, AfterAll(Lesson)) + Present(fx.course.afterAll, AfterAll(Course)), Completed)
  {
    PairAllComplete(fx.course.beforeAll, BeforeAll(Course), fx.lesson.beforeAll, BeforeAll(Lesson), fx.behaviour);
    PairAllComplete(fx.lesson.afterAll, AfterAll(Lesson), fx.course.afterAll, AfterAll(Course), fx.behaviour);
  }

  // ---------------------------------------------------------------------------
  // The scenarios of the runner's own test suite, as instances of the lemmas.

  const NoHooks := Hooks(false, false, false, false)
  const AllHooks := Hooks(true, true, true, true)
  const TwoTests := [TestMeta("test1", 1, None, None, None), TestMeta("test2", 2, None, None, None)]

  /** One test and no hooks: the run passes when the body completes, and
      records one failed entry when it throws. */
  lemma RunTestScenario(message: string)
    ensures var fx := Fixture(NoHooks, NoHooks, [TestMeta("Should be true", 1, None, None, None)], User, None,
                              c => Completed);
      Lifecycle(fx).response == TestResponse(true, None, [TestEntry("Should be true", true, None)])
    ensures var fx := Fixture(NoHooks, NoHooks, [TestMeta("Should be true", 1, None, None, None)], User, None,
                              c => Threw(message));
      Lifecycle(fx).response == TestResponse(false, None, [TestEntry("Should be true", false, Some(message))])
  {
    var pass := Fixture(NoHooks, NoHooks, [TestMeta("Should be true", 1, None, None, None)], User, None,
                        c => Completed);
    AllComplete(pass);
    var fail := Fixture(NoHooks, NoHooks, [TestMeta("Should be true", 1, None, None, None)], User, None,
                        c => Threw(message));
    var start := Started(fail);
    assert start == Running([], TestResponse(true, None, []));
    RunTestsShape(fail, Attempts(fail), start, 1);
    UserEntries(fail, Attempts(fail), 1);
    assert Attempts(fail)(0).failure == Some(message);
    assert !NoneFailed(fail, Attempts(fail), 1);
  }

  /** Two three-call attempts between two single calls, as one list. */
  lemma ThreeAroundTwo(head: Call, first: seq<Call>, second: seq<Call>, last: Call)
    requires |first| == 3 && |second| == 3
    ensures [head] + (first + second) + [last]
            == [head, first[0], first[1], first[2], second[0], second[1], second[2], last]
  {
  }

  /** With every hook on the lesson and nothing throwing, the first test runs
      after one beforeAll and one beforeEach and no afterEach, the second after
      two beforeEach and one afterEach, and the run ends with two of each
      per-test hook and one afterAll. */
  lemma LessonHooksScenario()
    ensures var fx := Fixture(NoHooks, AllHooks, TwoTests, User, None, c => Completed);
      Lifecycle(fx) == Running(
        [BeforeAll(Lesson), BeforeEach(Lesson, 0), Body(0), AfterEach(Lesson, 0),
         BeforeEach(Lesson, 1), Body(1), AfterEach(Lesson, 1), AfterAll(Lesson)],
        TestResponse(true, None, [TestEntry("test1", true, None), TestEntry("test2", true, None)]))
  {
    var fx := Fixture(NoHooks, AllHooks, TwoTests, User, None, c => Completed);
    var first := [BeforeEach(Lesson, 0), Body(0), AfterEach(Lesson, 0)];
    var second := [BeforeEach(Lesson, 1), Body(1), AfterEach(Lesson, 1)];
    assert FullAttempts(fx, 2) == first + second by {
      assert FullAttempt(fx, 0) == first;
      assert FullAttempt(fx, 1) == second;
      assert FullAttempts(fx, 1) == first;
    }
    assert AllPassed(fx.tests) == [TestEntry("test1", true, None), TestEntry("test2", true, None)];
    assert Present(fx.course.beforeAll, BeforeAll(Course)) + Present(fx.lesson.beforeAll, BeforeAll(Lesson)) == [BeforeAll(Lesson)];
    assert Present(fx.lesson.afterAll, AfterAll(Lesson)) + Present(fx.course.afterAll, AfterAll(Course)) == [AfterAll(Lesson)];
    ThreeAroundTwo(BeforeAll(Lesson), first, second, AfterAll(Lesson));
    AllComplete(fx);
  }

  /** The same with every hook on the course instead. */
  lemma CourseHooksScenario()
    ensures var fx := Fixture(AllHooks, NoHooks, TwoTests, User, None, c => Completed);
      Lifecycle(fx) == Running(
        [BeforeAll(Course), BeforeEach(Course, 0), Body(0), AfterEach(Course, 0),
         BeforeEach(Course, 1), Body(1), AfterEach(Course, 1), AfterAll(Course)],
        TestResponse(true, None, [TestEntry("test1", true, None), TestEntry("test2", true, None)]))
  {
    var fx := Fixture(AllHooks, NoHooks, TwoTests, User, None, c => Completed);
    AllComplete(fx);
    assert FullAttempts(fx, 2) == FullAttempt(fx, 0) + FullAttempt(fx, 1);
  }

  /** A lesson beforeAll that fails ends the run with no test entries and its
      message as the error. */
  lemma BeforeAllScenario()
    ensures var fx := Fixture(NoHooks, Hooks(true, false, false, false), TwoTests, User, None,
                              (c: Call) => if c.BeforeAll? then Threw("assertion fail in beforeAll") else Threw("should not get here"));
      Lifecycle(fx).response == TestResponse(false, Some("assertion fail in beforeAll"), [])
  {
    var fx := Fixture(NoHooks, Hooks(true, false, false, false), TwoTests, User, None,
                      (c: Call) => if c.BeforeAll? then Threw("assertion fail in beforeAll") else Threw("should not get here"));
    BeforeAllFailure(fx, "assertion fail in beforeAll");
  }

  /** A lesson beforeEach that fails fails every test with its message and
      leaves the run's error unset. */
  lemma BeforeEachScenario()
    ensures var fx := Fixture(NoHooks, Hooks(false, true, false, false), TwoTests, User, None,
                              (c: Call) => if c.BeforeEach? then Threw("assertion fail in beforeEach") else Threw("should not get here"));
      Lifecycle(fx).response == TestResponse(false, None,
        [TestEntry("test1", false, Some("assertion fail in beforeEach")),
         TestEntry("test2", false, Some("assertion fail in beforeEach"))])
  {
    var fx := Fixture(NoHooks, Hooks(false, true, false, false), TwoTests, User, None,
                      (c: Call) => if c.BeforeEach? then Threw("assertion fail in beforeEach") else Threw("should not get here"));
    var attempts := Attempts(fx);
    assert attempts(0).failure == Some("assertion fail in beforeEach");
    assert attempts(1).failure == Some("assertion fail in beforeEach");
    var start := Started(fx);
    assert start == Running([], TestResponse(true, None, []));
    RunTestsShape(fx, attempts, start, 2);
    UserEntries(fx, attempts, 2);
    assert !NoneFailed(fx, attempts, 2);
  }

  /** A lesson afterEach and afterAll run even though both test bodies throw:
      afterEach once per test and afterAll once. */
  lemma AfterHooksScenario()
    ensures var fx := Fixture(NoHooks, Hooks(false, false, true, true), TwoTests, User, None,
                              (c: Call) => if c.Body? then Threw("test failure") else Completed);
      && multiset(Lifecycle(fx).trace)[AfterEach(Lesson, 0)] == 1
      && multiset(Lifecycle(fx).trace)[AfterEach(Lesson, 1)] == 1
      && multiset(Lifecycle(fx).trace)[AfterAll(Lesson)] == 1
  {
    var fx := Fixture(NoHooks, Hooks(false, false, true, true), TwoTests, User, None,
                      (c: Call) => if c.Body? then Threw("test failure") else Completed);
    HookCallCounts(fx, 0);
    HookCallCounts(fx, 1);
  }

  // ---------------------------------------------------------------------------
  // Finding the course and the lesson

  /** What `lesson.slug` throws when the course lists a class without `@Lesson`. */
  const UndefinedSlugError: string := "Cannot read properties of undefined (reading 'slug')"

  const DevelopmentTitleError: string := "Test name must be provided in development mode"

  /** The first `k` lessons all have metadata and a slug other than `slug`, so
      `find` passes over them. */
  ghost predicate PassesOver(lessons: seq<Option<LessonMeta>>, slug: Option<string>, k: nat)
    requires k <= |lessons|
  {
    forall j | 0 <= j < k :: lessons[j].Some? && Some(lessons[j].value.slug) != slug
  }

  /** `lessons.find(lesson => lesson.slug === slug)`: the first lesson with that
      slug; a lesson without metadata met before it makes the callback throw. */
  function FindLesson(lessons: seq<Option<LessonMeta>>, slug: Option<string>): (r: Result<Option<LessonMeta>>)
    ensures r == Ok(None) <==> forall l | l in lessons :: l.Some? && Some(l.value.slug) != slug
    ensures r.Ok? && r.value.Some? ==> Some(r.value.value.slug) == slug && r.value in lessons
    ensures r.Err? ==> r.msg == UndefinedSlugError && None in lessons
    ensures r.Ok? && r.value.Some? ==>
      exists k | 0 <= k < |lessons| :: lessons[k] == r.value && PassesOver(lessons, slug, k)
    ensures r.Err? ==>
      exists k | 0 <= k < |lessons| :: lessons[k] == None && PassesOver(lessons, slug, k)
  {
    if lessons == [] then Ok(None)
    else if lessons[0].None? then
      assert lessons[0] in lessons && PassesOver(lessons, slug, 0);
      Err(UndefinedSlugError)
    else if Some(lessons[0].value.slug) == slug then
      assert PassesOver(lessons, slug, 0);
      Ok(lessons[0])
    else
      var r := FindLesson(lessons[1..], slug);
      assert forall k | 0 <= k < |lessons| - 1 && PassesOver(lessons[1..], slug, k) :: PassesOver(lessons, slug, k + 1);
      r
  }

  function FixtureOf(classes: Classes, course: CourseMeta, lesson: LessonMeta, mode: Mode,
                     testTitle: Option<string>, behaviour: Call -> Outcome): Fixture
  {
    Fixture(classes.hooksOf(course.ctor), classes.hooksOf(lesson.ctor), classes.testsOf(lesson.ctor),
            mode, testTitle, behaviour)
  }

  /** The course map the constructor builds: each course under its slug, a later
      course replacing an earlier one with the same slug. */
  function CourseMapOf(metas: map<Ref, CourseMeta>, courses: seq<Ref>): map<string, CourseMeta>
    requires forall c | c in courses :: c in metas
  {
    if courses == [] then map[]
    else
      var last := metas[courses[|courses| - 1]];
      CourseMapOf(metas, courses[..|courses| - 1])[last.slug := last]
  }

  lemma {:induction false} CourseMapLookup(metas: map<Ref, CourseMeta>, courses: seq<Ref>, slug: string)
    requires forall c | c in courses :: c in metas
    ensures slug in CourseMapOf(metas, courses) <==> exists c | c in courses :: metas[c].slug == slug
    ensures slug in CourseMapOf(metas, courses) ==>
      exists i | 0 <= i < |courses| :: metas[courses[i]] == CourseMapOf(metas, courses)[slug]
        && metas[courses[i]].slug == slug
        && forall j | i < j < |courses| :: metas[courses[j]].slug != slug
  {
    if courses != [] {
      var n := |courses| - 1;
      var init := courses[..n];
      var last := metas[courses[n]];
      CourseMapLookup(metas, init, slug);
      var m := CourseMapOf(metas, courses);
      assert m == CourseMapOf(metas, init)[last.slug := last];
      if last.slug == slug {
        assert metas[courses[n]] == m[slug];
        assert courses[n] in courses;
      } else if slug in m {
        var i :| 0 <= i < |init| && metas[init[i]] == CourseMapOf(metas, init)[slug]
          && metas[init[i]].slug == slug
          && forall j | i < j < |init| :: metas[init[j]].slug != slug;
        assert courses[i] == init[i] && init[i] in courses;
        forall j | i < j < |courses|
          ensures metas[courses[j]].slug != slug
        {
          if j < n {
            assert courses[j] == init[j];
          }
        }
        assert metas[courses[i]] == m[slug];
      } else {
        forall c | c in courses
          ensures metas[c].slug != slug
        {
          if c != courses[n] {
            assert c in init;
          }
        }
      }
    }
  }

  // ---------------------------------------------------------------------------
  // Actions

  /** The instance an action is called on. */
  datatype Target = CourseInstance | LessonInstance

  /** What the action function does when called on a target. */
  datatype ActionOutcome = Returned(body: string) | Raised(message: string)

  /** `{ body }` or `{ error }`; the body is the action's value, kept opaque. */
  datatype ActionResponse = Answered(body: string) | Failed(error: string)

  /** `actions.find(a => a.name === name)`. */
  function FindAction(actions: seq<ActionMeta>, name: string): (r: Option<ActionMeta>)
    ensures r.None? <==> forall a | a in actions :: a.name != name
    ensures r.Some? ==> r.value in actions && r.value.name == name
    ensures r.Some? ==>
      exists k | 0 <= k < |actions| :: actions[k] == r.value && forall j | 0 <= j < k :: actions[j].name != name
  {
    if actions == [] then None
    else if actions[0].name == name then Some(actions[0])
    else FindAction(actions[1..], name)
  }

  datatype Selection = Selection(action: ActionMeta, target: Target)

  /** `lessonAction || courseAction`, called on `courseAction ? course : lesson`. */
  function SelectAction(courseActions: seq<ActionMeta>, lessonActions: seq<ActionMeta>, name: string): Option<Selection>
  {
    var courseAction := FindAction(courseActions, name);
    var lessonAction := FindAction(lessonActions, name);
    var target := if courseAction.Some? then CourseInstance else LessonInstance;
    if lessonAction.Some? then Some(Selection(lessonAction.value, target))
    else if courseAction.Some? then Some(Selection(courseAction.value, target))
    else None
  }

  /** A lesson action wins over a course action of the same name; an action is
      found exactly when one of the two lists has that name; the call goes to the
      course instance whenever the course has an action of that name. */
  lemma {:induction false} ActionPreference(courseActions: seq<ActionMeta>, lessonActions: seq<ActionMeta>, name: string)
    ensures var r := SelectAction(courseActions, lessonActions, name);
      && (r.None? <==> (forall a | a in courseActions :: a.name != name) && (forall a | a in lessonActions :: a.name != name))
      && (FindAction(lessonActions, name).Some? ==> r.Some? && r.value.action == FindAction(lessonActions, name).value)
      && (r.Some? ==> r.value.action.name == name && (r.value.action in lessonActions || r.value.action in courseActions))
      && (r.Some? && FindAction(lessonActions, name).None? ==> r.value.action in courseActions && r.value.target == CourseInstance)
  {
  }

  /** The call's outcome as the response. */
  function Respond(outcome: ActionOutcome): (r: ActionResponse)
    ensures outcome.Returned? ==> r == Answered(outcome.body)
    ensures outcome.Raised? ==> r == Failed(outcome.message)
  {
    match outcome
    case Returned(body) => Answered(body)
    case Raised(message) => Failed(message)
  }

  function SlugText(slug: Option<string>): string
  {
    if slug.Some? then slug.value else "undefined"
  }

  // ---------------------------------------------------------------------------
  // File arrays and file maps

  /** The map `toFilesMap` builds from the files. */
  function FilesMapOf(files: seq<EditorFile>): (m: FileMap)
    ensures Valid(m)
  {
    if files == [] then Empty
    else
      var last := files[|files| - 1];
      Put(FilesMapOf(files[..|files| - 1]), last.path, last.content)
  }

  /** `toFilesMap`: assigns each file's content under its path, in order. */
  method ToFilesMap(files: seq<EditorFile>) returns (m: FileMap)
    ensures m == FilesMapOf(files)
  {
    m := Empty;
    for i := 0 to |files|
      invariant m == FilesMapOf(files[..i])
    {
      assert files[..i + 1][..i] == files[..i];
      m := Put(m, files[i].path, files[i].content);
    }
    assert files[..|files|] == files;
  }

  /** `toFilesArray`: the map's entries in key order. */
  function ToFilesArray(m: FileMap): (files: seq<EditorFile>)
    requires Valid(m)
    ensures |files| == |m.keys|
    ensures forall i | 0 <= i < |files| :: files[i] == EditorFile(m.keys[i], m.contents[m.keys[i]])
  {
    seq(|m.keys|, i requires 0 <= i < |m.keys| => EditorFile(m.keys[i], m.contents[m.keys[i]]))
  }

  /** A path holds the content of the last file with that path. */
  lemma {:induction false} FilesMapLastWins(files: seq<EditorFile>, i: nat)
    requires i < |files| && files[i].path != ProtoKey
    requires forall j | i < j < |files| :: files[j].path != files[i].path
    ensures files[i].path in FilesMapOf(files).contents
    ensures FilesMapOf(files).contents[files[i].path] == files[i].content
  {
    if i < |files| - 1 {
      FilesMapLastWins(files[..|files| - 1], i);
    }
  }

  /** The own keys are the files' paths except `__proto__`. */
  lemma {:induction false} FilesMapKeys(files: seq<EditorFile>)
    ensures forall k :: k in FilesMapOf(files).contents <==> k != ProtoKey && exists f | f in files :: f.path == k
  {
    if files != [] {
      var init := files[..|files| - 1];
      FilesMapKeys(init);
      assert files == init + [files[|files| - 1]];
    }
  }

  /** The position of the first file with the path, or the length when there is none. */
  function FirstIndex(files: seq<EditorFile>, path: string): (i: nat)
    ensures i <= |files|
    ensures i < |files| ==> files[i].path == path
    ensures forall j | 0 <= j < i :: files[j].path != path
    decreases |files|
  {
    if files == [] then 0
    else if files[0].path == path then 0
    else 1 + FirstIndex(files[1..], path)
  }

  /** Appending a file leaves the first position of an already present path alone,
      and puts a new path's first position at the end. */
  lemma FirstIndexSnoc(init: seq<EditorFile>, last: EditorFile, path: string)
    ensures FirstIndex(init, path) < |init| ==> FirstIndex(init + [last], path) == FirstIndex(init, path)
    ensures FirstIndex(init, path) == |init| && last.path == path ==> FirstIndex(init + [last], path) == |init|
  {
    var i := FirstIndex(init, path);
    if i < |init| {
      assert (init + [last])[i].path == path;
    } else if last.path == path {
      assert (init + [last])[|init|].path == path;
    }
  }

  /** The paths already in the map of the earlier files keep their first
      position when a file is appended, and it lies among the earlier files. */
  lemma OldKeysFirstIndex(init: seq<EditorFile>, last: EditorFile)
    ensures forall k | k in FilesMapOf(init).keys ::
      FirstIndex(init, k) < |init| && FirstIndex(init + [last], k) == FirstIndex(init, k)
  {
    FilesMapKeys(init);
    forall k | k in FilesMapOf(init).keys
      ensures FirstIndex(init, k) < |init| && FirstIndex(init + [last], k) == FirstIndex(init, k)
    {
      assert k in FilesMapOf(init).contents;
      var f :| f in init && f.path == k;
      var j :| 0 <= j < |init| && init[j] == f;
      FirstIndexSnoc(init, last, k);
    }
  }

  /** A path that is not in the map of the earlier files first occurs in the
      appended file. */
  lemma NewKeyFirstIndex(init: seq<EditorFile>, last: EditorFile)
    requires last.path != ProtoKey && last.path !in FilesMapOf(init).contents
    ensures FirstIndex(init + [last], last.path) == |init|
  {
    FilesMapKeys(init);
    forall j | 0 <= j < |init|
      ensures init[j].path != last.path
    {
      assert init[j] in init;
    }
    FirstIndexSnoc(init, last, last.path);
  }

  /** `toFilesMap` enumerates each path once, in the order in which the paths
      first occur among the files. */
  lemma {:induction false} FilesMapOrder(files: seq<EditorFile>)
    ensures forall a, b | 0 <= a < b < |FilesMapOf(files).keys| ::
      FirstIndex(files, FilesMapOf(files).keys[a]) < FirstIndex(files, FilesMapOf(files).keys[b])
  {
    if files != [] {
      var init := files[..|files| - 1];
      var last := files[|files| - 1];
      assert files == init + [last];
      var old_keys := FilesMapOf(init).keys;
      var keys := FilesMapOf(files).keys;
      FilesMapOrder(init);
      OldKeysFirstIndex(init, last);
      if last.path != ProtoKey && last.path !in FilesMapOf(init).contents {
        NewKeyFirstIndex(init, last);
        assert keys == old_keys + [last.path];
      } else {
        assert keys == old_keys;
      }
      forall a, b | 0 <= a < b < |keys|
        ensures FirstIndex(files, keys[a]) < FirstIndex(files, keys[b])
      {
        assert keys[a] == old_keys[a] && keys[a] in old_keys;
        if b < |old_keys| {
          assert keys[b] == old_keys[b] && keys[b] in old_keys;
        }
      }
    }
  }

  /** With distinct paths and no `__proto__`, converting to a map and back gives
      the same array. */
  lemma {:induction false} FilesRoundTrip(files: seq<EditorFile>)
    requires forall i, j | 0 <= i < j < |files| :: files[i].path != files[j].path
    requires forall f | f in files :: f.path != ProtoKey
    ensures ToFilesArray(FilesMapOf(files)) == files
  {
    if files != [] {
      var init := files[..|files| - 1];
      var last := files[|files| - 1];
      var m := FilesMapOf(init);
      FilesRoundTrip(init);
      assert last.path !in m.contents by {
        forall f | f in init
          ensures f.path != last.path
        {
          var j :| 0 <= j < |init| && init[j] == f;
          assert files[j] == f;
        }
        FilesMapKeys(init);
      }
      ArrayOfNewKey(m, init, last);
      assert files == init + [last];
    }
  }

  /** A new key adds its file at the end of the array. */
  lemma ArrayOfNewKey(m: FileMap, init: seq<EditorFile>, last: EditorFile)
    requires Valid(m) && ToFilesArray(m) == init
    requires last.path !in m.contents && last.path != ProtoKey
    ensures ToFilesArray(Put(m, last.path, last.content)) == init + [last]
  {
    var r := ToFilesArray(Put(m, last.path, last.content));
    forall k | 0 <= k < |init|
      ensures r[k] == init[k]
    {
      assert m.keys[k] != last.path;
    }
  }

  /** The `beforeEach`, `runTest` and `afterEach` closures for test `i`: the
      after-hooks run whether or not the earlier stages threw, and the first
      error is the test's failure. */
  method RunAttempt(fx: Fixture, i: nat) returns (trace: seq<Call>, failure: Option<string>)
    ensures Attempt(trace, failure) == AttemptTest(fx, i)
  {
    var beforeEach := BeforeEachRun(fx, i);
    trace := beforeEach.trace;
    if beforeEach.outcome.Threw? {
      var afterEach := AfterEachRun(fx, i);
      trace := trace + afterEach.trace;
      return trace, Some(beforeEach.outcome.message);
    }
    var body := fx.behaviour(Body(i));
    trace := trace + [Body(i)];
    var afterEach := AfterEachRun(fx, i);
    trace := trace + afterEach.trace;
    if body.Threw? {
      return trace, Some(body.message);
    }
    if afterEach.outcome.Threw? {
      return trace, Some(afterEach.outcome.message);
    }
    return trace, None;
  }

  /** The lifecycle of one `test` call once the course and lesson are found:
      beforeAll, the loop over the tests, afterAll. */
  method RunLifecycle(fx: Fixture) returns (r: Result<TestResponse>, trace: seq<Call>)
    ensures (r, trace) == Settle(Lifecycle(fx))
  {
    var passed := true;
    var error: Option<string> := None;
    var tests: seq<TestEntry> := [];

    // beforeAll
    var beforeAll := BeforeAllRun(fx);
    trace := beforeAll.trace;
    if beforeAll.outcome.Threw? {
      error := Some(beforeAll.outcome.message);
      passed := false;
      var afterAll := AfterAllRun(fx);
      trace := trace + afterAll.trace;
      if fx.mode == Development {
        return Err(beforeAll.outcome.message), trace;
      }
    }
    if Truthy(error) {
      return Ok(TestResponse(passed, error, tests)), trace;
    }

    ghost var start := Running(trace, TestResponse(passed, error, tests));
    assert start == Started(fx);
    for i := 0 to |fx.tests|
      invariant Running(trace, TestResponse(passed, error, tests)) == RunTests(fx, Attempts(fx), start, i)
    {
      var test := fx.tests[i];
      if fx.mode == Development && fx.testTitle != Some(test.title) {
        continue;
      }

      var attemptTrace, failure := RunAttempt(fx, i);
      trace := trace + attemptTrace;
      if failure.Some? {
        if fx.mode == Development {
          RejectedStays(fx, Attempts(fx), start, i + 1, |fx.tests|);
          return Err(failure.value), trace;
        }
        tests := tests + [TestEntry(test.title, false, failure)];
        passed := false;
        continue;
      }
      tests := tests + [TestEntry(test.title, true, None)];
    }

    // afterAll
    var afterAll := AfterAllRun(fx);
    trace := trace + afterAll.trace;
    if afterAll.outcome.Threw? {
      if fx.mode == Development {
        return Err(afterAll.outcome.message), trace;
      }
      error := Some(afterAll.outcome.message);
      passed := false;
    }
    return Ok(TestResponse(passed, error, tests)), trace;
  }

  /** The metadata of each course class, read with `getCourseMeta`. */
  ghost function CourseMetasOf(metadata: Metadata, courses: seq<Ref>): (m: map<Ref, CourseMeta>)
    requires forall c | c in courses :: metadata.GetCourseMeta(c).Some?
    reads metadata
    ensures forall c | c in courses :: c in m && m[c] == metadata.GetCourseMeta(c).value
  {
    map c | c in courses :: metadata.GetCourseMeta(c).value
  }

  // ---------------------------------------------------------------------------
  // The runner

  class Runner {
    const metadata: Metadata
    var courseMap: map<string, CourseMeta>

    /** Registers each course under its slug. A course class without `@Course`
        would make `courseMeta.slug` throw; callers pass decorated classes. */
    constructor (metadata: Metadata, courses: seq<Ref>)
      requires forall c | c in courses :: metadata.GetCourseMeta(c).Some?
      ensures this.metadata == metadata
      ensures courseMap == CourseMapOf(CourseMetasOf(metadata, courses), courses)
    {
      this.metadata := metadata;
      courseMap := map[];
      ghost var metas := CourseMetasOf(metadata, courses);
      new;
      for i := 0 to |courses|
        invariant courseMap == CourseMapOf(metas, courses[..i])
      {
        var courseMeta := metadata.GetCourseMeta(courses[i]).value;
        assert courses[i] in courses;
        assert courses[..i + 1][..i] == courses[..i];
        assert CourseMapOf(metas, courses[..i + 1]) == CourseMapOf(metas, courses[..i])[courseMeta.slug := courseMeta];
        courseMap := courseMap[courseMeta.slug := courseMeta];
      }
      assert courses[..|courses|] == courses;
    }

    /** `test`: the three lookup errors, then the lifecycle of the lesson's tests.
        The trace lists the hook, body and after-hook calls made, in order. */
    method Test(courseSlug: string, lessonSlug: string, files: seq<EditorFile>, mode: Mode,
                testTitle: Option<string>, behaviour: Call -> Outcome)
      returns (r: Result<TestResponse>, trace: seq<Call>)
      ensures courseSlug !in courseMap ==> r == Err("Course " + courseSlug + " not found") && trace == []
      ensures courseSlug in courseMap ==>
        var course := courseMap[courseSlug];
        var found := FindLesson(metadata.GetLessons(course), Some(lessonSlug));
        && (found.Err? ==> r == Err(found.msg) && trace == [])
        && (found == Ok(None) ==> r == Err("Lesson " + lessonSlug + " not found") && trace == [])
        && (found.Ok? && found.value.Some? && mode == Development && !Truthy(testTitle) ==>
              r == Err(DevelopmentTitleError) && trace == [])
        && (found.Ok? && found.value.Some? && (mode == User || Truthy(testTitle)) ==>
              (r, trace) == Settle(Lifecycle(FixtureOf(metadata.classes, course, found.value.value, mode, testTitle, behaviour))))
    {
      trace := [];
      if courseSlug !in courseMap {
        return Err("Course " + courseSlug + " not found"), trace;
      }
      var courseMeta := courseMap[courseSlug];
      var lessons := metadata.GetLessons(courseMeta);
      var found := FindLesson(lessons, Some(lessonSlug));
      if found.Err? {
        return Err(found.msg), trace;
      }
      if found.value.None? {
        return Err("Lesson " + lessonSlug + " not found"), trace;
      }
      var lessonMeta := found.value.value;
      if mode == Development && !Truthy(testTitle) {
        return Err(DevelopmentTitleError), trace;
      }
      var fx := FixtureOf(metadata.classes, courseMeta, lessonMeta, mode, testTitle, behaviour);
      r, trace := RunLifecycle(fx);
    }

    /** `action`: finds the course (an unknown one is an error), the lesson if
        any, and the action, then calls it. A missing action is an error naming
        the action, the course and the lesson slug. */
    method Action(courseSlug: string, lessonSlug: Option<string>, name: string, files: seq<EditorFile>,
                  behaviour: (Target, Ref) -> ActionOutcome)
      returns (r: Result<ActionResponse>)
      ensures courseSlug !in courseMap ==> r == Err("Course " + courseSlug + " not found")
      ensures courseSlug in courseMap ==>
        var course := courseMap[courseSlug];
        var found := FindLesson(metadata.GetLessons(course), lessonSlug);
        var lessonActions := if found.Ok? && found.value.Some? then metadata.classes.actionsOf(found.value.value.ctor) else [];
        var selection := SelectAction(metadata.classes.actionsOf(course.ctor), lessonActions, name);
        && (found.Err? ==> r == Err(found.msg))
        && (found.Ok? && selection.None? ==>
              r == Err("Action " + name + " for course " + courseSlug + " and " + SlugText(lessonSlug) + " not found"))
        && (found.Ok? && selection.Some? ==>
              r == Ok(Respond(behaviour(selection.value.target, selection.value.action.fn))))
    {
      if courseSlug !in courseMap {
        return Err("Course " + courseSlug + " not found");
      }
      var courseMeta := courseMap[courseSlug];
      var lessons := metadata.GetLessons(courseMeta);
      var found := FindLesson(lessons, lessonSlug);
      if found.Err? {
        return Err(found.msg);
      }
      var courseAction := FindAction(metadata.classes.actionsOf(courseMeta.ctor), name);
      var lessonAction: Option<ActionMeta> := None;
      if found.value.Some? {
        lessonAction := FindAction(metadata.classes.actionsOf(found.value.value.ctor), name);
      }
      var target := if courseAction.Some? then CourseInstance else LessonInstance;
      var action := if lessonAction.Some? then lessonAction else courseAction;
      if action.None? {
        return Err("Action " + name + " for course " + courseSlug + " and " + SlugText(lessonSlug) + " not found");
      }
      var outcome := behaviour(target, action.value.fn);
      match outcome {
        case Returned(body) => return Ok(Answered(body));
        case Raised(message) => return Ok(Failed(message));
      }
    }
  }
}
