/** The Solana runner's executor: recognising test results in the output of
    `cargo test-sbf`, and the steps of `perform_test` that prepare, build and
    test a lesson project. Processes, the file system and the channel that
    carries output lines are inputs: each step's outcome and each run's exit
    status and output lines are given. */
module SolanaExecutor {
  import opened Wrappers
  import opened Text
  import opened SolanaTypes

  // ---------------------------------------------------------------------------
  // TEST_RESULT_REGEX = `test (?P<test_name>[^ ]+) ... (?P<result>ok|FAILED)`,
  // searched anywhere in a line. `[^ ]` is any character but a space and `.` any
  // character but a newline.

  datatype Verdict = Passed | Failed

  /** The two named groups of a match. */
  datatype Capture = Capture(testName: string, result: Verdict)

  function VerdictText(v: Verdict): string
  {
    match v
    case Passed => "ok"
    case Failed => "FAILED"
  }

  /** The end of the run of non-space characters starting at `j`. */
  function RunEnd(s: string, j: nat): (e: nat)
    requires j <= |s|
    ensures j <= e <= |s|
    ensures forall k | j <= k < e :: s[k] != ' '
    ensures e < |s| ==> s[e] == ' '
    decreases |s| - j
  {
    if j < |s| && s[j] != ' ' then RunEnd(s, j + 1) else j
  }

  /** The match of the pattern that starts at `i`, if any. The name group
      cannot hold a space and is followed by one, so it is the whole run of
      non-space characters after `"test "`. */
  function MatchAt(s: string, i: nat): Option<Capture>
  {
    if !OccursAt(s, "test ", i) then None
    else
      var e := RunEnd(s, i + 5);
      if e == i + 5 || e + 5 > |s| || s[e + 4] != ' ' || '\n' in s[e + 1..e + 4] then None
      else if OccursAt(s, "ok", e + 5) then Some(Capture(s[i + 5..e], Passed))
      else if OccursAt(s, "FAILED", e + 5) then Some(Capture(s[i + 5..e], Failed))
      else None
  }

  /** A part of a text found at `i` is found in `s` at the matching offset. */
  lemma SliceOf(s: string, whole: string, i: nat, lo: nat, hi: nat)
    requires OccursAt(s, whole, i) && lo <= hi <= |whole|
    ensures s[i + lo..i + hi] == whole[lo..hi]
  {
    assert s[i..i + |whole|] == whole;
    forall k | 0 <= k < hi - lo
      ensures s[i + lo..i + hi][k] == whole[lo..hi][k]
    {
      assert s[i + lo + k] == s[i..i + |whole|][lo + k];
    }
  }

  lemma CharOf(s: string, whole: string, i: nat, k: nat)
    requires OccursAt(s, whole, i) && k < |whole|
    ensures s[i + k] == whole[k]
  {
    assert s[i..i + |whole|][k] == s[i + k];
  }

  /** Where each part of a line of the pattern's shape lies. */
  lemma PatternParts(s: string, i: nat, name: string, gap: string, v: Verdict)
    requires name != [] && ' ' !in name
    requires |gap| == 3
    requires OccursAt(s, "test " + name + " " + gap + " " + VerdictText(v), i)
    ensures var e := i + 5 + |name|;
      && OccursAt(s, "test ", i)
      && e + 5 <= |s|
      && s[i + 5..e] == name
      && (forall k | i + 5 <= k < e :: s[k] != ' ')
      && s[e] == ' ' && s[e + 4] == ' '
      && s[e + 1..e + 4] == gap
      && OccursAt(s, VerdictText(v), e + 5)
  {
    var n := |name|;
    var e := i + 5 + n;
    var head := "test " + name;
    OccursSplit(s, head + " " + gap + " ", VerdictText(v), i);
    OccursSplit(s, head + " " + gap, " ", i);
    OccursSplit(s, head + " ", gap, i);
    OccursSplit(s, head, " ", i);
    OccursSplit(s, "test ", name, i);
    CharOf(s, " ", e, 0);
    CharOf(s, " ", e + 4, 0);
    forall k | i + 5 <= k < e
      ensures s[k] != ' '
    {
      assert s[k] == s[i + 5..e][k - i - 5] == name[k - i - 5];
    }
  }

  /** Both halves of a text found at `i` are found where they lie. */
  lemma OccursSplit(s: string, a: string, b: string, i: nat)
    requires OccursAt(s, a + b, i)
    ensures OccursAt(s, a, i) && OccursAt(s, b, i + |a|)
  {
    SliceOf(s, a + b, i, 0, |a|);
    SliceOf(s, a + b, i, |a|, |a + b|);
    assert (a + b)[..|a|] == a;
    assert (a + b)[|a|..] == b;
  }

  /** A line of the pattern's shape matches at its start, with its name and
      verdict as the groups. */
  lemma PatternMatches(s: string, i: nat, name: string, gap: string, v: Verdict)
    requires name != [] && ' ' !in name
    requires |gap| == 3 && '\n' !in gap
    requires OccursAt(s, "test " + name + " " + gap + " " + VerdictText(v), i)
    ensures MatchAt(s, i) == Some(Capture(name, v))
  {
    var e := i + 5 + |name|;
    PatternParts(s, i, name, gap, v);
    RunEndAt(s, i + 5, e);
    if v == Failed {
      assert s[e + 5] == s[e + 5..e + 11][0] == 'F';
    }
  }

  lemma {:induction false} RunEndAt(s: string, j: nat, e: nat)
    requires j <= e < |s| && s[e] == ' '
    requires forall k | j <= k < e :: s[k] != ' '
    ensures RunEnd(s, j) == e
    decreases e - j
  {
    if j < e {
      RunEndAt(s, j + 1, e);
    }
  }

  /** Conversely, every match has that shape: `"test "`, a non-empty name
      without spaces, a space, three characters other than a newline, a space
      and the verdict. */
  lemma MatchShape(s: string, i: nat)
    requires MatchAt(s, i).Some?
    ensures var c := MatchAt(s, i).value; var n := |c.testName|;
      && c.testName != [] && ' ' !in c.testName
      && OccursAt(s, "test " + c.testName + " ", i)
      && i + 9 + n <= |s| && '\n' !in s[i + 6 + n..i + 9 + n]
      && OccursAt(s, " " + VerdictText(c.result), i + 9 + n)
  {
    var c := MatchAt(s, i).value;
    MatchFacts(s, i);
    ShapeOf(s, i, c);
  }

  /** The pieces of a match, found one after the other, form its shape. */
  lemma ShapeOf(s: string, i: nat, c: Capture)
    requires Pieces(s, i, c)
    ensures var n := |c.testName|;
      && c.testName != [] && ' ' !in c.testName
      && OccursAt(s, "test " + c.testName + " ", i)
      && i + 9 + n <= |s| && '\n' !in s[i + 6 + n..i + 9 + n]
      && OccursAt(s, " " + VerdictText(c.result), i + 9 + n)
  {
    OccursThree(s, "test ", c.testName, " ", i);
    OccursJoin(s, " ", VerdictText(c.result), i + 9 + |c.testName|);
  }

  lemma OccursThree(s: string, a: string, b: string, c: string, i: nat)
    requires OccursAt(s, a, i) && OccursAt(s, b, i + |a|) && OccursAt(s, c, i + |a| + |b|)
    ensures OccursAt(s, a + b + c, i)
  {
    OccursJoin(s, a, b, i);
    OccursJoin(s, a + b, c, i);
  }

  /** Where each part of a match lies. */
  predicate Pieces(s: string, i: nat, c: Capture)
  {
    var e := i + 5 + |c.testName|;
    && e + 5 <= |s| && c.testName != [] && ' ' !in c.testName
    && OccursAt(s, "test ", i) && OccursAt(s, c.testName, i + 5)
    && OccursAt(s, " ", e) && OccursAt(s, " ", e + 4)
    && '\n' !in s[e + 1..e + 4]
    && OccursAt(s, VerdictText(c.result), e + 5)
  }

  lemma MatchFacts(s: string, i: nat)
    requires MatchAt(s, i).Some?
    ensures Pieces(s, i, MatchAt(s, i).value)
  {
    var e := RunEnd(s, i + 5);
    var c := MatchAt(s, i).value;
    assert c.testName == s[i + 5..e];
    SpaceAt(s, e);
    SpaceAt(s, e + 4);
    RunWithoutSpace(s, i + 5, e);
  }

  lemma SpaceAt(s: string, j: nat)
    requires j < |s| && s[j] == ' '
    ensures OccursAt(s, " ", j)
  {
    assert s[j..j + 1] == [s[j]];
  }

  lemma RunWithoutSpace(s: string, j: nat, e: nat)
    requires j <= e <= |s|
    requires forall k | j <= k < e :: s[k] != ' '
    ensures ' ' !in s[j..e] && OccursAt(s, s[j..e], j)
  {
    var name := s[j..e];
    assert forall k | 0 <= k < |name| :: name[k] == s[j + k];
  }

  lemma OccursJoin(s: string, a: string, b: string, i: nat)
    requires OccursAt(s, a, i) && OccursAt(s, b, i + |a|)
    ensures OccursAt(s, a + b, i)
  {
    assert s[i..i + |a + b|] == s[i..i + |a|] + s[i + |a|..i + |a| + |b|];
  }

  /** The first match from position `i` on. */
  function CapturesFrom(s: string, i: nat): Option<Capture>
    decreases |s| - i
  {
    if i > |s| then None
    else match MatchAt(s, i)
      case Some(c) => Some(c)
      case None => CapturesFrom(s, i + 1)
  }

  /** `TEST_RESULT_REGEX.captures(line)`: the leftmost match. */
  function Captures(s: string): Option<Capture>
  {
    CapturesFrom(s, 0)
  }

  lemma {:induction false} CapturesFromLeftmost(s: string, i: nat)
    ensures CapturesFrom(s, i).Some? ==>
      exists k | i <= k <= |s| :: MatchAt(s, k) == CapturesFrom(s, i) && forall j | i <= j < k :: MatchAt(s, j).None?
    ensures CapturesFrom(s, i).None? ==> forall k | i <= k :: MatchAt(s, k).None?
    decreases |s| - i
  {
    if i > |s| {
      forall k | i <= k
        ensures MatchAt(s, k).None?
      {
        assert !OccursAt(s, "test ", k);
      }
    } else if MatchAt(s, i).Some? {
      assert MatchAt(s, i) == CapturesFrom(s, i);
    } else {
      assert CapturesFrom(s, i) == CapturesFrom(s, i + 1);
      CapturesFromLeftmost(s, i + 1);
      if CapturesFrom(s, i + 1).Some? {
        var k :| i + 1 <= k <= |s| && MatchAt(s, k) == CapturesFrom(s, i + 1) && forall j | i + 1 <= j < k :: MatchAt(s, j).None?;
        assert forall j | i <= j < k :: MatchAt(s, j).None?;
      }
    }
  }

  /** The groups come from the leftmost position where the pattern matches, and
      a line without a match has no position where it does. */
  lemma CapturesLeftmost(s: string)
    ensures Captures(s).Some? ==>
      exists k | 0 <= k <= |s| :: MatchAt(s, k) == Captures(s) && forall j | 0 <= j < k :: MatchAt(s, j).None?
    ensures Captures(s).None? ==> forall k: nat :: MatchAt(s, k).None?
  {
    CapturesFromLeftmost(s, 0);
  }

  // ---------------------------------------------------------------------------
  // `trim_start_matches` and `trim_end_matches`: every repetition is removed.

  /** `k` copies of `p`, one after another. */
  function Repeat(p: string, k: nat): string
  {
    if k == 0 then "" else p + Repeat(p, k - 1)
  }

  /** One more copy can be added at the end as well as at the front. */
  lemma {:induction false} RepeatSnoc(p: string, k: nat)
    ensures Repeat(p, k) + p == Repeat(p, k + 1)
  {
    if k > 0 {
      RepeatSnoc(p, k - 1);
      assert Repeat(p, k) + p == p + (Repeat(p, k - 1) + p);
    }
  }

  /** Removes the leading copies of `p`, and only those: what is left no longer
      starts with `p`. */
  function TrimStartAll(s: string, p: string): (r: string)
    requires |p| > 0
    ensures !StartsWith(r, p)
    ensures exists k: nat :: s == Repeat(p, k) + r
    decreases |s|
  {
    if StartsWith(s, p) then
      var r := TrimStartAll(s[|p|..], p);
      TrimStartStep(s, p, r);
      r
    else
      assert s == Repeat(p, 0) + s;
      s
  }

  lemma TrimStartStep(s: string, p: string, r: string)
    requires StartsWith(s, p)
    requires exists k: nat :: s[|p|..] == Repeat(p, k) + r
    ensures exists k: nat :: s == Repeat(p, k) + r
  {
    var k: nat :| s[|p|..] == Repeat(p, k) + r;
    assert s == p + s[|p|..];
    assert s == Repeat(p, k + 1) + r;
  }

  /** Removes the trailing copies of `p`, and only those: what is left no longer
      ends with `p`. */
  function TrimEndAll(s: string, p: string): (r: string)
    requires |p| > 0
    ensures !EndsWith(r, p)
    ensures exists k: nat :: s == r + Repeat(p, k)
    decreases |s|
  {
    if EndsWith(s, p) then
      var r := TrimEndAll(s[..|s| - |p|], p);
      TrimEndStep(s, p, r);
      r
    else
      assert s == s + Repeat(p, 0);
      s
  }

  lemma TrimEndStep(s: string, p: string, r: string)
    requires EndsWith(s, p)
    requires exists k: nat :: s[..|s| - |p|] == r + Repeat(p, k)
    ensures exists k: nat :: s == r + Repeat(p, k)
  {
    var k: nat :| s[..|s| - |p|] == r + Repeat(p, k);
    AppendCopy(s, p, r, k);
  }

  lemma AppendCopy(s: string, p: string, r: string, k: nat)
    requires EndsWith(s, p) && s[..|s| - |p|] == r + Repeat(p, k)
    ensures s == r + Repeat(p, k + 1)
  {
    assert s == s[..|s| - |p|] + s[|s| - |p|..];
    RepeatSnoc(p, k);
    assert (r + Repeat(p, k)) + p == r + (Repeat(p, k) + p);
  }

  const HeaderStart := "---- "
  const HeaderEnd := " stdout ----"

  predicate IsHeader(line: string)
  {
    StartsWith(line, HeaderStart) && EndsWith(line, HeaderEnd)
  }

  function HeaderKey(line: string): string
  {
    TrimEndAll(TrimStartAll(line, HeaderStart), HeaderEnd)
  }

  /** The header cargo prints before a failed test's output gives back that
      test's name. */
  lemma HeaderKeyOf(name: string)
    requires name != [] && name[0] != '-' && ' ' !in name
    ensures IsHeader(HeaderStart + name + HeaderEnd)
    ensures HeaderKey(HeaderStart + name + HeaderEnd) == name
  {
    var line := HeaderStart + name + HeaderEnd;
    assert line[5..] == name + HeaderEnd;
    assert !StartsWith(name + HeaderEnd, HeaderStart) by { assert (name + HeaderEnd)[0] == name[0]; }
    assert TrimStartAll(line, HeaderStart) == name + HeaderEnd;
    assert (name + HeaderEnd)[..|name|] == name;
    if |name| >= |HeaderEnd| {
      var k := |name| - |HeaderEnd|;
      assert name[k] != ' ';
      assert name[k..][0] == name[k];
    }
    assert !EndsWith(name, HeaderEnd);
    assert (name + HeaderEnd)[|name|..] == HeaderEnd;
    assert TrimEndAll(name + HeaderEnd, HeaderEnd) == TrimEndAll(name, HeaderEnd);
    assert EndsWith(line, HeaderEnd) by { assert line[|line| - |HeaderEnd|..] == HeaderEnd; }
    assert StartsWith(line, HeaderStart) by { assert line[..5] == HeaderStart; }
  }

  // ---------------------------------------------------------------------------
  // test_results_from_stdout

  /** The loop's variables: results, names of failed tests, the key being
      collected and the text collected for it. */
  datatype Scan = Scan(tests: seq<TTest>, testsFailed: seq<string>, collectingKey: string, collectedLines: string)

  const Initial := Scan([], [], "", "")

  /** One line of output. The pattern is tried first; a line that matches
      never starts or feeds a collection. */
  function ScanLine(st: Scan, line: string): (r: Scan)
    ensures Captures(line).Some? ==> r.collectingKey == st.collectingKey && r.collectedLines == st.collectedLines
    ensures Captures(line).Some? && Captures(line).value.result == Passed ==>
              r.tests == st.tests + [OkTest(Captures(line).value.testName)]
    ensures Captures(line).Some? && Captures(line).value.result == Failed ==> r.tests == st.tests
    ensures |st.tests| <= |r.tests| <= |st.tests| + 1 && r.tests[..|st.tests|] == st.tests
  {
    match Captures(line)
    case Some(Capture(name, Passed)) => st.(tests := st.tests + [OkTest(name)])
    case Some(Capture(name, Failed)) => st.(testsFailed := st.testsFailed + [name])
    case None =>
      if IsHeader(line) then st.(collectingKey := HeaderKey(line))
      else if line == [] then
        if st.collectingKey != [] then Scan(st.tests + [ErrorTest(st.collectingKey, st.collectedLines)], st.testsFailed, "", "")
        else st
      else if st.collectingKey != [] && Contains(line, "assert") then st.(collectedLines := st.collectedLines + line + "\n")
      else st
  }

  function ScanLines(st: Scan, lines: seq<string>): Scan
  {
    if lines == [] then st else ScanLine(ScanLines(st, lines[..|lines| - 1]), lines[|lines| - 1])
  }

  /** Reads the output lines and returns the results it recognised. Failed
      test names are gathered but never returned. */
  method TestResultsFromStdout(lines: seq<string>) returns (tests: seq<TTest>)
    ensures tests == ScanLines(Initial, lines).tests
  {
    tests := [];
    var testsFailed: seq<string> := [];
    var collectingKey := "";
    var collectedLines := "";
    var i := 0;
    while i < |lines|
      invariant i <= |lines|
      invariant Scan(tests, testsFailed, collectingKey, collectedLines) == ScanLines(Initial, lines[..i])
    {
      var line := lines[i];
      assert lines[..i + 1][..i] == lines[..i];
      var captures := Captures(line);
      if captures.Some? {
        match captures.value.result {
          case Passed => tests := tests + [OkTest(captures.value.testName)];
          case Failed => testsFailed := testsFailed + [captures.value.testName];
        }
      } else if IsHeader(line) {
        collectingKey := HeaderKey(line);
      } else if line == [] {
        if collectingKey != [] {
          tests := tests + [ErrorTest(collectingKey, collectedLines)];
          collectingKey := "";
          collectedLines := "";
        }
      } else if collectingKey != [] {
        if Contains(line, "assert") {
          collectedLines := collectedLines + line + "\n";
        }
      }
      i := i + 1;
    }
    assert lines[..i] == lines;
  }

  lemma {:induction false} ScanSplit(st: Scan, a: seq<string>, b: seq<string>)
    ensures ScanLines(st, a + b) == ScanLines(ScanLines(st, a), b)
    decreases |b|
  {
    if b == [] {
      assert a + b == a;
    } else {
      ScanSplit(st, a, b[..|b| - 1]);
      assert (a + b)[..|a + b| - 1] == a + b[..|b| - 1];
    }
  }

  /** The names of the lines that report a passing test, in order. */
  function PassedNames(lines: seq<string>): seq<string>
  {
    if lines == [] then []
    else
      var line := lines[|lines| - 1];
      PassedNames(lines[..|lines| - 1])
      + (if Captures(line).Some? && Captures(line).value.result == Passed then [Captures(line).value.testName] else [])
  }

  /** Without failure sections, the results are exactly one passing entry per
      `test <name> ... ok` line, in order, and nothing is being collected. */
  lemma {:induction false} OnlyPassedLines(lines: seq<string>)
    requires forall i | 0 <= i < |lines| :: !IsHeader(lines[i])
    ensures ScanLines(Initial, lines).collectingKey == ""
    ensures var tests := ScanLines(Initial, lines).tests;
      && |tests| == |PassedNames(lines)|
      && forall i | 0 <= i < |tests| :: tests[i] == OkTest(PassedNames(lines)[i])
  {
    if lines != [] {
      OnlyPassedLines(lines[..|lines| - 1]);
    }
  }

  /** A collection that no empty line closes adds nothing: lines without an
      empty line or a passing match leave the results as they were, so an
      open collection is dropped when the output ends. */
  lemma {:induction false} UnclosedAddsNothing(st: Scan, rest: seq<string>)
    requires forall i | 0 <= i < |rest| :: rest[i] != [] && !(Captures(rest[i]).Some? && Captures(rest[i]).value.result == Passed)
    ensures ScanLines(st, rest).tests == st.tests
  {
    if rest != [] {
      UnclosedAddsNothing(st, rest[..|rest| - 1]);
    }
  }

  /** A failure section: its header, its lines (the ones mentioning
      `assert` are kept, each with a newline), and the empty line that closes
      it give one failed entry under the header's name. */
  lemma FailureSection(st: Scan, name: string, body: seq<string>)
    requires name != [] && name[0] != '-' && ' ' !in name
    requires Captures(HeaderStart + name + HeaderEnd).None?
    requires forall i | 0 <= i < |body| :: body[i] != [] && Captures(body[i]).None? && !IsHeader(body[i])
    ensures ScanLines(st, [HeaderStart + name + HeaderEnd] + body + [""])
            == Scan(st.tests + [ErrorTest(name, st.collectedLines + Kept(body))], st.testsFailed, "", "")
  {
    HeaderKeyOf(name);
    var header := HeaderStart + name + HeaderEnd;
    var afterHeader := st.(collectingKey := name);
    assert ScanLines(st, [header]) == afterHeader by {
      assert [header][..0] == [];
    }
    CollectBody(afterHeader, body);
    ScanSplit(st, [header], body);
    ScanSplit(st, [header] + body, [""]);
    assert ([header] + body + [""])[..|[header] + body + [""]| - 1] == [header] + body;
    assert Captures("") == None by { assert !OccursAt("", "test ", 0); }
  }

  /** The text kept from a failure section's lines. */
  function Kept(body: seq<string>): string
  {
    if body == [] then ""
    else Kept(body[..|body| - 1]) + (if Contains(body[|body| - 1], "assert") then body[|body| - 1] + "\n" else "")
  }

  lemma {:induction false} CollectBody(st: Scan, body: seq<string>)
    requires st.collectingKey != []
    requires forall i | 0 <= i < |body| :: body[i] != [] && Captures(body[i]).None? && !IsHeader(body[i])
    ensures ScanLines(st, body) == st.(collectedLines := st.collectedLines + Kept(body))
  {
    if body != [] {
      CollectBody(st, body[..|body| - 1]);
      var last := body[|body| - 1];
      var before := st.collectedLines + Kept(body[..|body| - 1]);
      if Contains(last, "assert") {
        assert before + last + "\n" == st.collectedLines + Kept(body);
      } else {
        assert before == st.collectedLines + Kept(body);
      }
    } else {
      assert st.collectedLines + "" == st.collectedLines;
    }
  }

  // ---------------------------------------------------------------------------
  // perform_test

  /** The outcome of one file-system step, with the error text it reports. */
  datatype Step = Done | Fails(message: string)

  /** The status a process exits with and its `{:?}` text. */
  datatype Exit = Exit(success: bool, status: string)

  /** One command: it could not be spawned or awaited, or it ran to an exit
      status, printing the given lines. */
  datatype Run = Unstarted(message: string) | Ran(exit: Exit, stdout: seq<string>)

  /** What the environment does at each step of `perform_test`: creating the
      working directory, copying the lesson template, writing each request file,
      whether `target/` exists already, creating it, and the rsync, build and
      test commands. */
  datatype Workspace = Workspace(createDir: Step, copyTemplate: Step, writes: seq<Step>, targetExists: bool,
                                 createTarget: Step, rsync: Run, build: Run, testRun: Run)

  const CompileError := "Failed to compile code; exit code = "
  const PrepareError := "Failed to prepare working directory with dummy project; exit code = "

  function FirstFailure(steps: seq<Step>): (r: Option<string>)
    ensures r.None? <==> forall i | 0 <= i < |steps| :: steps[i].Done?
  {
    if steps == [] then None
    else if steps[0].Fails? then Some(steps[0].message)
    else FirstFailure(steps[1..])
  }

  /** The steps up to the build, in order: the first to fail gives the error.
      An `anyhow` context error prints as its context text. */
  function Prepared(w: Workspace): (r: Option<string>)
  {
    if w.createDir.Fails? then Some("create_dir_all")
    else if w.copyTemplate.Fails? then Some("copy_from_template")
    else if FirstFailure(w.writes).Some? then FirstFailure(w.writes)
    else if w.targetExists then None
    else if w.createTarget.Fails? then Some(w.createTarget.message)
    else if w.rsync.Unstarted? then Some(w.rsync.message)
    else if !w.rsync.exit.success then Some(PrepareError + w.rsync.exit.status)
    else None
  }

  /** `perform_test`. A failed build is an error; a failed test run is not:
      the results of the build and of the test run are returned together. */
  function Performed(w: Workspace): (r: Result<seq<TTest>>)
    ensures Prepared(w).None? && w.build.Ran? && !w.build.exit.success ==>
              r == Err(CompileError + w.build.exit.status)
    ensures r.Ok? <==> Prepared(w).None? && w.build.Ran? && w.build.exit.success && w.testRun.Ran?
    ensures r.Ok? ==> r.value == ScanLines(Initial, w.build.stdout).tests + ScanLines(Initial, w.testRun.stdout).tests
  {
    if Prepared(w).Some? then Err(Prepared(w).value)
    else if w.build.Unstarted? then Err(w.build.message)
    else if !w.build.exit.success then Err(CompileError + w.build.exit.status)
    else if w.testRun.Unstarted? then Err(w.testRun.message)
    else Ok(ScanLines(Initial, w.build.stdout).tests + ScanLines(Initial, w.testRun.stdout).tests)
  }

  /** Runs a command: its output lines become results. */
  method TracingExecute(run: Run) returns (r: Result<(Exit, seq<TTest>)>)
    ensures run.Unstarted? ==> r == Err(run.message)
    ensures run.Ran? ==> r == Ok((run.exit, ScanLines(Initial, run.stdout).tests))
  {
    if run.Unstarted? {
      return Err(run.message);
    }
    var tests := TestResultsFromStdout(run.stdout);
    return Ok((run.exit, tests));
  }

  /** The steps of `perform_test` before the build, stopping at the first
      that fails. */
  method Prepare(w: Workspace) returns (error: Option<string>)
    ensures error == Prepared(w)
  {
    if w.createDir.Fails? {
      return Some("create_dir_all");
    }
    if w.copyTemplate.Fails? {
      return Some("copy_from_template");
    }
    for i := 0 to |w.writes|
      invariant forall k | 0 <= k < i :: w.writes[k].Done?
    {
      if w.writes[i].Fails? {
        FirstFailureAt(w.writes, i);
        return Some(w.writes[i].message);
      }
    }
    if !w.targetExists {
      if w.createTarget.Fails? {
        return Some(w.createTarget.message);
      }
      var rsync := TracingExecute(w.rsync);
      if rsync.Err? {
        return Some(rsync.msg);
      }
      if !rsync.value.0.success {
        return Some(PrepareError + rsync.value.0.status);
      }
    }
    return None;
  }

  method PerformTest(w: Workspace) returns (r: Result<seq<TTest>>)
    ensures r == Performed(w)
  {
    var prepared := Prepare(w);
    if prepared.Some? {
      return Err(prepared.value);
    }
    var res: seq<TTest> := [];
    var build := TracingExecute(w.build);
    if build.Err? {
      return Err(build.msg);
    }
    res := res + build.value.1;
    if !build.value.0.success {
      return Err(CompileError + build.value.0.status);
    }
    var testRun := TracingExecute(w.testRun);
    if testRun.Err? {
      return Err(testRun.msg);
    }
    res := res + testRun.value.1;
    assert w.build.Ran? && w.build.exit.success && w.testRun.Ran?;
    assert res == ScanLines(Initial, w.build.stdout).tests + ScanLines(Initial, w.testRun.stdout).tests;
    return Ok(res);
  }

  lemma {:induction false} FirstFailureAt(steps: seq<Step>, i: nat)
    requires i < |steps| && steps[i].Fails?
    requires forall k | 0 <= k < i :: steps[k].Done?
    ensures FirstFailure(steps) == Some(steps[i].message)
  {
    if i > 0 {
      FirstFailureAt(steps[1..], i - 1);
    }
  }
}
