/** The Solana runner's `solve` handler and its startup check: find the
    lesson, perform the test, sort the results by title and aggregate them. */
module SolanaMain {
  import opened Wrappers
  import opened Text
  import opened SolanaTypes
  import opened SolanaExecutor
  import opened SolanaLesson

  // ---------------------------------------------------------------------------
  // `sort_by(|a, b| a.title.cmp(&b.title))`: a stable sort by title.

  predicate SortedByTitle(tests: seq<TTest>)
  {
    forall i, j | 0 <= i < j < |tests| :: LexLe(tests[i].title, tests[j].title)
  }

  /** Inserts `x` after every entry whose title is not greater than its own. */
  function Insert(sorted: seq<TTest>, x: TTest): seq<TTest>
  {
    if sorted == [] then [x]
    else if LexLe(sorted[0].title, x.title) then [sorted[0]] + Insert(sorted[1..], x)
    else [x] + sorted
  }

  function SortByTitle(tests: seq<TTest>): seq<TTest>
  {
    if tests == [] then [] else Insert(SortByTitle(tests[..|tests| - 1]), tests[|tests| - 1])
  }

  /** The entries with a given title, in order. */
  function WithTitle(tests: seq<TTest>, title: string): seq<TTest>
  {
    if tests == [] then []
    else WithTitle(tests[..|tests| - 1], title) + (if tests[|tests| - 1].title == title then [tests[|tests| - 1]] else [])
  }

  lemma {:induction false} WithTitleAppend(a: seq<TTest>, b: seq<TTest>, title: string)
    ensures WithTitle(a + b, title) == WithTitle(a, title) + WithTitle(b, title)
    decreases |b|
  {
    if b == [] {
      assert a + b == a;
    } else {
      WithTitleAppend(a, b[..|b| - 1], title);
      assert (a + b)[..|a + b| - 1] == a + b[..|b| - 1];
    }
  }

  lemma {:induction false} InsertMultiset(sorted: seq<TTest>, x: TTest)
    ensures multiset(Insert(sorted, x)) == multiset(sorted) + multiset{x}
  {
    if sorted != [] && LexLe(sorted[0].title, x.title) {
      InsertMultiset(sorted[1..], x);
      assert sorted == [sorted[0]] + sorted[1..];
    }
  }

  lemma {:induction false} InsertSorted(sorted: seq<TTest>, x: TTest)
    requires SortedByTitle(sorted)
    ensures SortedByTitle(Insert(sorted, x))
  {
    if sorted == [] {
    } else if LexLe(sorted[0].title, x.title) {
      InsertSorted(sorted[1..], x);
      HeadBeforeInsert(sorted, x);
    } else {
      LexLeTotal(sorted[0].title, x.title);
      forall j | 0 <= j < |sorted|
        ensures LexLe(x.title, sorted[j].title)
      {
        if j > 0 {
          LexLeTransitive(x.title, sorted[0].title, sorted[j].title);
        }
      }
    }
  }

  /** The head of a sorted list stays before everything `x` is inserted into
      the rest of it. */
  lemma HeadBeforeInsert(sorted: seq<TTest>, x: TTest)
    requires SortedByTitle(sorted) && sorted != [] && LexLe(sorted[0].title, x.title)
    ensures forall j | 0 <= j < |Insert(sorted[1..], x)| :: LexLe(sorted[0].title, Insert(sorted[1..], x)[j].title)
  {
    var rest := Insert(sorted[1..], x);
    InsertMultiset(sorted[1..], x);
    forall j | 0 <= j < |rest|
      ensures LexLe(sorted[0].title, rest[j].title)
    {
      assert rest[j] in multiset(sorted[1..]) + multiset{x};
      if rest[j] != x {
        assert rest[j] in sorted[1..];
      }
    }
  }

  /** An inserted entry comes after every entry with the same title. */
  lemma {:induction false} InsertWithTitle(sorted: seq<TTest>, x: TTest, title: string)
    requires SortedByTitle(sorted)
    ensures WithTitle(Insert(sorted, x), title) == WithTitle(sorted, title) + WithTitle([x], title)
  {
    if sorted == [] {
      assert [] + [x] == [x];
    } else if LexLe(sorted[0].title, x.title) {
      InsertWithTitle(sorted[1..], x, title);
      InsertAfterHead(sorted, x, title);
    } else {
      WithTitleAppend([x], sorted, title);
      if x.title == title {
        NoneWithTitle(sorted, title);
      }
    }
  }

  /** The step of `InsertWithTitle` where `x` goes after the head. */
  lemma InsertAfterHead(sorted: seq<TTest>, x: TTest, title: string)
    requires sorted != [] && LexLe(sorted[0].title, x.title)
    requires WithTitle(Insert(sorted[1..], x), title) == WithTitle(sorted[1..], title) + WithTitle([x], title)
    ensures WithTitle(Insert(sorted, x), title) == WithTitle(sorted, title) + WithTitle([x], title)
  {
    var head := [sorted[0]];
    var rest := sorted[1..];
    assert Insert(sorted, x) == head + Insert(rest, x);
    assert sorted == head + rest;
    WithTitleAppend(head, Insert(rest, x), title);
    WithTitleAppend(head, rest, title);
  }

  /** No entry of a sorted list has a title below its first. */
  lemma {:induction false} NoneWithTitle(sorted: seq<TTest>, title: string)
    requires SortedByTitle(sorted) && sorted != [] && !LexLe(sorted[0].title, title)
    ensures WithTitle(sorted, title) == []
    decreases |sorted|
  {
    var init := sorted[..|sorted| - 1];
    if init != [] {
      assert SortedByTitle(init);
      NoneWithTitle(init, title);
    }
    var last := sorted[|sorted| - 1];
    LexLeTotal(sorted[0].title, sorted[0].title);
    assert LexLe(sorted[0].title, last.title);
  }

  lemma {:induction false} SortProperties(tests: seq<TTest>)
    ensures SortedByTitle(SortByTitle(tests))
    ensures multiset(SortByTitle(tests)) == multiset(tests)
  {
    if tests != [] {
      var init := tests[..|tests| - 1];
      SortProperties(init);
      InsertSorted(SortByTitle(init), tests[|tests| - 1]);
      InsertMultiset(SortByTitle(init), tests[|tests| - 1]);
      assert tests == init + [tests[|tests| - 1]];
    }
  }

  /** The sort is stable: the entries of each title keep their order. */
  lemma {:induction false} SortStable(tests: seq<TTest>, title: string)
    ensures WithTitle(SortByTitle(tests), title) == WithTitle(tests, title)
  {
    if tests != [] {
      var init := tests[..|tests| - 1];
      var x := tests[|tests| - 1];
      SortStable(init, title);
      SortProperties(init);
      InsertWithTitle(SortByTitle(init), x, title);
      assert [x][..0] == [];
    }
  }

  lemma {:induction false} InsertFailedCount(sorted: seq<TTest>, x: TTest)
    ensures FailedCount(Insert(sorted, x)) == FailedCount(sorted) + FailedCount([x])
  {
    if sorted == [] {
    } else if LexLe(sorted[0].title, x.title) {
      InsertFailedCount(sorted[1..], x);
      FailedCountAppend([sorted[0]], Insert(sorted[1..], x));
      FailedCountAppend([sorted[0]], sorted[1..]);
      assert sorted == [sorted[0]] + sorted[1..];
    } else {
      FailedCountAppend([x], sorted);
    }
  }

  lemma {:induction false} SortFailedCount(tests: seq<TTest>)
    ensures FailedCount(SortByTitle(tests)) == FailedCount(tests)
  {
    if tests != [] {
      var init := tests[..|tests| - 1];
      var x := tests[|tests| - 1];
      SortFailedCount(init);
      InsertFailedCount(SortByTitle(init), x);
      assert [x][..0] == [];
    }
  }

  // ---------------------------------------------------------------------------
  // solve

  /** The response to a request for `lessonSlug`, where `workspace` says what
      the environment does when the lesson's test is performed. */
  function Solved(course: Course, lessonSlug: string, workspace: Lesson -> Workspace): TTestResponse
  {
    match LessonOf(course, lessonSlug)
    case None => ErrorResponse("Lesson not found: " + lessonSlug)
    case Some(lesson) =>
      match Performed(workspace(lesson))
      case Ok(results) => FromTests(SortByTitle(results))
      case Err(message) => ErrorResponse(message)
  }

  method Solve(course: Course, lessonSlug: string, workspace: Lesson -> Workspace) returns (response: TTestResponse)
    ensures response == Solved(course, lessonSlug, workspace)
  {
    var lesson := LessonOf(course, lessonSlug);
    if lesson.None? {
      return ErrorResponse("Lesson not found: " + lessonSlug);
    }
    var performed := PerformTest(workspace(lesson.value));
    match performed {
      case Ok(results) =>
        var sorted := SortByTitle(results);
        response := FromTests(sorted);
      case Err(message) =>
        response := ErrorResponse(message);
    }
  }

  /** What `solve` answers: an unknown lesson and an executor error become
      error responses; otherwise the results, sorted by title and with each
      title's entries in their original order, pass exactly when all of them
      passed, and a failing response counts the failures among all results. */
  lemma SolvedResponse(course: Course, lessonSlug: string, workspace: Lesson -> Workspace)
    ensures lessonSlug !in course.lessonsBySlug ==>
              Solved(course, lessonSlug, workspace) == ErrorResponse("Lesson not found: " + lessonSlug)
    ensures lessonSlug in course.lessonsBySlug ==>
      var performed := Performed(workspace(course.lessonsBySlug[lessonSlug]));
      var r := Solved(course, lessonSlug, workspace);
      && (performed.Err? ==> r == ErrorResponse(performed.msg))
      && (performed.Ok? && performed.value == [] ==> r == ErrorResponse(NoTestsMessage))
      && (performed.Ok? && performed.value != [] ==>
            && SortedByTitle(r.tests)
            && multiset(r.tests) == multiset(performed.value)
            && (forall title :: WithTitle(r.tests, title) == WithTitle(performed.value, title))
            && (r.passed <==> forall t | t in performed.value :: t.passed)
            && (!r.passed ==> r.error == Some(NatToString(FailedCount(performed.value)) + " of "
                                             + NatToString(|performed.value|) + " tests failed")))
  {
    if lessonSlug in course.lessonsBySlug {
      var performed := Performed(workspace(course.lessonsBySlug[lessonSlug]));
      if performed.Ok? {
        var results := performed.value;
        SortProperties(results);
        SortFailedCount(results);
        forall title
          ensures WithTitle(SortByTitle(results), title) == WithTitle(results, title)
        {
          SortStable(results, title);
        }
        var sorted := SortByTitle(results);
        assert |sorted| == |results| by {
          assert |multiset(sorted)| == |multiset(results)|;
        }
        assert forall t | t in sorted :: t in multiset(results);
        assert forall t | t in results :: t in multiset(sorted);
      }
    }
  }

  // ---------------------------------------------------------------------------
  // Startup

  /** The server refuses to start without a lesson. */
  function Startup(course: Course): (r: Result<()>)
    ensures r.Ok? <==> |course.lessonsBySlug| > 0
    ensures r.Err? ==> r.msg == "No lessons found in " + course.basedir
  {
    if |course.lessonsBySlug| == 0 then Err("No lessons found in " + course.basedir) else Ok(())
  }
}
