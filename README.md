# agorapp-solana: a verified model of the runners and the editor store

AgorApp teaches blockchain programming through interactive courses. A learner
edits code in the browser editor. A *runner* then tests the submission and
answers with a test response: passed or not, an optional error, and one entry
per test. This project models the core of that system in Dafny and proves
properties of the model:

- **Docker runner** (`dockerService.ts`, `allowedImages.ts`). Runs a
  container for an allow-listed image under memory and time limits. Reads the
  result from the last `DOCKER_RUNNER_RESULT=` line of the output.
- **Course runner** (`CourseRunner.ts`, `CourseMetadata.ts`). Runs a lesson's
  tests with the course's and the lesson's lifecycle hooks (`beforeAll`,
  `beforeEach`, `afterEach`, `afterAll`), in user or development mode. Also
  dispatches named actions. The metadata registry behind it is a class whose
  maps the registration methods update. Reads go up the prototype chain (a
  subclass sees its parent's metadata), and check lists are shared objects.
- **Test-suite reporter** (`TestSuiteServiceReporter.ts`). Collects Mocha
  pass and fail events.
- **JavaScript userspace** (`JavaScriptUserspace.ts`). Writes submitted files
  under `userspace/code`, rejecting paths that resolve outside it. Drops cached
  userspace modules. Node's `path.join`, `path.normalize` and `path.resolve`
  are modelled in `node_path.dfy` on POSIX paths.
- **Solana runner** (`executor.rs`, `lesson.rs`, `types.rs`, `main.rs`).
  Prepares a workspace, builds and tests it, and scans cargo's output for test
  results. Then sorts the results by title and aggregates them. Also covers
  the response's JSON shape.
- **Editor store** (`EditorStore.tsx`). A class holding the editor's state,
  with one method per store action.
- **Small pure pieces.** The runner URL table (`getRunnerUrl.ts`) and the
  parsers of the chain, language and topic enums.

Each source file is one module. Code that updates state in place is a
`class`:

- `DockerService.RunOpts`;
- `CourseMetadata.Metadata`;
- `CourseRunner.Runner`;
- `TestSuiteReporter.Reporter`;
- `JavaScriptUserspace.Userspace` and `JavaScriptUserspace.RequireCache`;
- `EditorStore.Store`.

Each class's methods state the whole new state. Loops are `while` or `for`
loops, each proved against a specification function:

- the create loop and `invalidateRequireCache`;
- the output scans;
- the test loop of the course runner;
- the Solana executor's steps.

Pure code is modelled as functions with lemmas.

Some things the code does come in from outside. They become parameters of the
model:

- **Docker runner:** what the Docker engine reports (the output chunks, the
  exit status, whether the timer fired).
- **Course runner:** what each hook, test body and action does when called
  (completes or throws a message).
- **Solana runner:** what the file system and the child processes do (each
  step succeeds or fails with a message, and the lines a process prints).
- **Lesson loader:** what the directory listing holds.

## Model

| member | source | states |
|---|---|---|
| AllowedImages.Lookup | packages/docker-runner/src/services/allowedImages.ts:6-19 | an image is found exactly when it is one of the table's own keys, and then with that key's limits |
| AllowedImages.TableImages | packages/docker-runner/src/services/allowedImages.ts:6-19 | the allow list holds exactly the lisk, swarm and nearjs images |
| AllowedImages.TableLimits | packages/docker-runner/src/services/allowedImages.ts:7-18 | lisk and nearjs get 250 MiB and 10 s, swarm gets 100 MiB and 5 s |
| AllowedImages.EveryEntrySetsLimits | packages/docker-runner/src/services/allowedImages.ts:6-19 | every allowed image sets a positive memory limit and a positive timeout, so no default applies to it |
| AllowedImages.PrototypeNameBypassesAllowList | packages/docker-runner/src/services/dockerService.ts:29-36 | the name "constructor" is not in the table, yet indexing the table as written finds an entry with no limits; the own-key lookup rejects it |
| AllowedImages.LookupAsWritten | packages/docker-runner/src/services/dockerService.ts:29-35 | `allowedImages[image]` finds something exactly when the image is a table key or an `Object.prototype` property name; a table key gives its own limits, and an inherited property sets neither memory nor timeout |
| AllowedImages.LookupAgreesOffPrototype | packages/docker-runner/src/services/dockerService.ts:29 | for every name that is not an Object.prototype property, the lookup as written and the own-key lookup agree |
| DockerService.RunOpts.constructor | packages/docker-runner/src/services/dockerService.ts:4-7 | the options object holds the given timeout and memory |
| DockerService.OrDefaultChoice | packages/docker-runner/src/services/dockerService.ts:54-56 | `x \|\| d` keeps a given non-zero limit and falls back to the default for a missing or zero one, so the result is never zero |
| DockerService.ImageNameOfReference | packages/docker-runner/src/services/dockerService.ts:59-63 | the image reference `image:tag` gives back the image when the tag has no ':' |
| DockerService.SpecIsSandboxed | packages/docker-runner/src/services/dockerService.ts:61-75 | the container has networking disabled, is removed on exit, and has swappiness equal to the memory limit; it runs the requested image and gets exactly the action and the JSON args in its environment |
| DockerService.LastResultLineWins | packages/docker-runner/src/services/dockerService.ts:113-119 | the result is parsed from the last line that starts with the result prefix; earlier result lines are overwritten |
| DockerService.NoResultLine | packages/docker-runner/src/services/dockerService.ts:113-119 | the result stays undefined exactly when no line starts with the prefix, and the scan never yields the `Null` marker of the error paths (a payload reading `null` is kept as parsed text) |
| DockerService.SingleResultLine | packages/docker-runner/src/services/dockerService.ts:112-119 | one `DOCKER_RUNNER_RESULT=` line followed by CRLF yields exactly its payload |
| DockerService.ScanResult | packages/docker-runner/src/services/dockerService.ts:113-119 | the loop over the CRLF-split output computes the last-result-line function |
| DockerService.Finish | packages/docker-runner/src/services/dockerService.ts:94-125 | a timeout gives a null result and the timeout message; otherwise a non-zero status gives a null result and the exit-status message; otherwise there is no error and the result is the last result line; the output and container id are kept in every case |
| DockerService.OutOfMemoryExample | packages/docker-runner/src/services/dockerService.ts:103-110 | status 137 yields "Container exited with a status code 137." |
| DockerService.RunUnrestricted | packages/docker-runner/src/services/dockerService.ts:48-126 | the options are filled with the defaults (2000 ms, 24 MiB); the container is launched with that spec and timeout; the output is the concatenated stream data; the error and result follow `Finish` |
| DockerService.Run | packages/docker-runner/src/services/dockerService.ts:28-37 | an image outside the allow list fails with "Image … is not allowed" and launches nothing; an allowed image launches with exactly its table limits |
| CourseChain.ParseCourseChain | packages/content/content-common/src/types/ECourseChain.ts:11-16 | a string is accepted exactly when it is one of the enum's values, and gives that member back; otherwise the error is "Invalid chain: …" |
| CourseChain.ParseName | packages/content/content-common/src/types/ECourseChain.ts:1-16 | parsing a member's value gives the member back |
| CourseChain.ParseAccepts | packages/content/content-common/src/types/ECourseChain.ts:12 | accepted exactly when some member has that value |
| CourseChain.NameInjective | packages/content/content-common/src/types/ECourseChain.ts:1-9 | distinct members have distinct values |
| CourseChain.KeySpellingRejected | packages/content/content-common/src/types/ECourseChain.ts:8-13 | a member's key spelling ("SOLANA") is rejected: only values are accepted |
| CourseLanguage.ParseCourseLanguage | packages/content/content-common/src/types/ECourseLanguage.ts:9-14 | a string is accepted exactly when it is one of the enum's values, and gives that member back; otherwise the error is "Invalid language: …" |
| CourseLanguage.ParseName | packages/content/content-common/src/types/ECourseLanguage.ts:1-14 | parsing a member's value gives the member back |
| CourseLanguage.ParseAccepts | packages/content/content-common/src/types/ECourseLanguage.ts:10 | accepted exactly when some member has that value |
| CourseLanguage.NameInjective | packages/content/content-common/src/types/ECourseLanguage.ts:1-7 | distinct members have distinct values |
| CourseLanguage.KeySpellingRejected | packages/content/content-common/src/types/ECourseLanguage.ts:6-11 | a member's key spelling is rejected |
| Topic.ParseTopic | packages/content/content-common/src/types/ETopic.ts:12-17 | a string is accepted exactly when it is one of the enum's values, and gives that member back; otherwise the error is "Invalid topic: …" |
| Topic.ParseName | packages/content/content-common/src/types/ETopic.ts:1-17 | parsing a member's value gives the member back |
| Topic.ParseAccepts | packages/content/content-common/src/types/ETopic.ts:13 | accepted exactly when some member has that value |
| Topic.NameInjective | packages/content/content-common/src/types/ETopic.ts:1-10 | distinct members have distinct values |
| Topic.KeySpellingRejected | packages/content/content-common/src/types/ETopic.ts:9-14 | a member's key spelling is rejected |
| RunnerUrl.Hostname | dev-editor/src/utils/getRunnerUrl.ts:2 | a set, non-empty `RUNNERS_HOSTNAME` is used; otherwise the host is "localhost" |
| RunnerUrl.GetRunnerUrl | dev-editor/src/utils/getRunnerUrl.ts:1-20 | known runners get `http://host:port`; any other name fails with "Runner … not supported" |
| RunnerUrl.Ports | dev-editor/src/utils/getRunnerUrl.ts:5-16 | the port of each of the six runners |
| RunnerUrl.DistinctPorts | dev-editor/src/utils/getRunnerUrl.ts:4-16 | no two runners share a port |
| RunnerUrl.DistinctUrls | dev-editor/src/utils/getRunnerUrl.ts:4-16 | for any hostname, no two runners get the same URL |
| TestSuiteReporter.Entries | packages/runner-common/src/services/TestSuiteServiceReporter.ts:16-30 | one result entry per event, in order: a pass is not failed with an empty error, a fail is failed with its message |
| TestSuiteReporter.FlagMatchesEntries | packages/runner-common/src/services/TestSuiteServiceReporter.ts:8-47 | the error flag is set exactly when some recorded entry failed |
| TestSuiteReporter.Reporter.constructor | packages/runner-common/src/services/TestSuiteServiceReporter.ts:7-8 | a new reporter has no results and no error |
| TestSuiteReporter.Reporter.OnPass | packages/runner-common/src/services/TestSuiteServiceReporter.ts:16-22 | a pass appends a non-failed entry and leaves the flag as it was |
| TestSuiteReporter.Reporter.OnFail | packages/runner-common/src/services/TestSuiteServiceReporter.ts:23-30 | a fail appends a failed entry with the error's message and sets the flag |
| TestSuiteReporter.Reporter.GetTestsResult | packages/runner-common/src/services/TestSuiteServiceReporter.ts:35-48 | the output lists the entries of all events; the suite passed exactly when no entry failed |
| TestSuiteReporter.Reporter.HasError | packages/runner-common/src/services/TestSuiteServiceReporter.ts:50-52 | true exactly when some event was a failure |
| TestSuiteReporter.Replay | packages/runner-common/src/services/TestSuiteServiceReporter.ts:13-48 | feeding any event sequence to a new reporter yields its entries, and the suite passes exactly when none failed |
| EditorStore.Initial | packages/editor-common/src/Editor/EditorStore.tsx:69-94 | the store starts from its props (light colour mode unless one is given) with empty files, tabs and panels, tab 0, no output, font size 14, the lesson section and no test results |
| EditorStore.Store.constructor | packages/editor-common/src/Editor/EditorStore.tsx:69-94 | a new store is in the initial state of its props |
| EditorStore.Store.SetAuthenticated | packages/editor-common/src/Editor/EditorStore.tsx:96-98 | only `authenticated` changes |
| EditorStore.Store.SetEnableLessonsWithProgress | packages/editor-common/src/Editor/EditorStore.tsx:99-101 | the config becomes the props' config with the flag set; any other change made to the config since is discarded |
| EditorStore.Store.SetOutput | packages/editor-common/src/Editor/EditorStore.tsx:102-104 | only the output changes |
| EditorStore.Store.SetTestResults | packages/editor-common/src/Editor/EditorStore.tsx:105-107 | only the test results change |
| EditorStore.Store.SetFiles | packages/editor-common/src/Editor/EditorStore.tsx:108-110 | only the files change |
| EditorStore.Store.SetTabs | packages/editor-common/src/Editor/EditorStore.tsx:111-113 | only the tabs change |
| EditorStore.Store.SetActiveTab | packages/editor-common/src/Editor/EditorStore.tsx:114-116 | only the active tab changes |
| EditorStore.Store.SetCurrentSection | packages/editor-common/src/Editor/EditorStore.tsx:117-119 | only the current section changes |
| EditorStore.Store.SetFontSize | packages/editor-common/src/Editor/EditorStore.tsx:120-122 | only the font size changes |
| EditorStore.Store.SetActiveLessonSlug | packages/editor-common/src/Editor/EditorStore.tsx:123-125 | only the active lesson changes |
| EditorStore.Store.SetColorMode | packages/editor-common/src/Editor/EditorStore.tsx:126-128 | only the colour mode changes |
| EditorStore.Store.SetHeaderContent | packages/editor-common/src/Editor/EditorStore.tsx:129-131 | only the header content changes; `undefined` clears it |
| EditorStore.Store.AddPanel | packages/editor-common/src/Editor/EditorStore.tsx:132-136 | the panel is appended and nothing else changes |
| EditorStore.Store.UpdatePanel | packages/editor-common/src/Editor/EditorStore.tsx:137-148 | the first panel with the same id is replaced; an unknown id leaves the whole state unchanged |
| EditorStore.Store.SetActivePanel | packages/editor-common/src/Editor/EditorStore.tsx:149-151 | only the active panel changes |
| EditorStore.Store.AddSidePanel | packages/editor-common/src/Editor/EditorStore.tsx:152-156 | the side panel is appended and nothing else changes |
| EditorStore.FindPanelIndex | packages/editor-common/src/Editor/EditorStore.tsx:140 | -1 exactly when no panel has the id; otherwise the index of the first panel that has it |
| EditorStore.FindPanelIndexAt | packages/editor-common/src/Editor/EditorStore.tsx:140 | the first position holding the id is the index found |
| EditorStore.UpdatedPanelsReplaceFirst | packages/editor-common/src/Editor/EditorStore.tsx:140-146 | the length is kept; only the first panel with the id is replaced, and every other panel stays where it was |
| EditorStore.UpdatedPanelsKeepIds | packages/editor-common/src/Editor/EditorStore.tsx:137-148 | updating never changes the sequence of panel ids |
| EditorStore.UpdatedPanelsIdempotent | packages/editor-common/src/Editor/EditorStore.tsx:137-148 | updating twice with the same panel is the same as updating once |
| EditorStore.AddThenUpdate | packages/editor-common/src/Editor/EditorStore.tsx:132-148 | adding a panel with a new id and then updating it leaves the updated panel last |
| CourseMetadata.Metadata.constructor | packages/runner-common/src/course-runner/CourseMetadata.ts:55-120 | the registry starts empty over the given class declarations |
| CourseMetadata.Metadata.SetCourseMeta | packages/runner-common/src/course-runner/CourseMetadata.ts:56-62 | the course class's metadata is replaced, and reading it back gives the new value |
| CourseMetadata.Metadata.SetLessonMeta | packages/runner-common/src/course-runner/CourseMetadata.ts:64-70 | the lesson class's metadata is replaced, and reading it back gives the new value |
| CourseMetadata.Chain | packages/runner-common/src/course-runner/CourseMetadata.ts:69 | a constructor's prototype chain starts at itself and climbs to older classes only |
| CourseMetadata.HolderNearest | packages/runner-common/src/course-runner/CourseMetadata.ts:69 | a property read finds a holder exactly when some class on the chain owns the key, and then the nearest such class |
| CourseMetadata.InheritedAlongChain | packages/runner-common/src/course-runner/CourseMetadata.ts:69 | a class reads what an ancestor reads when no class between them owns the key |
| CourseMetadata.InheritedAfterSet | packages/runner-common/src/course-runner/CourseMetadata.ts:110 | setting a key on one class changes a read elsewhere only to the new value, and only where the read found what that class found |
| CourseMetadata.Metadata.GetCourseMeta | packages/runner-common/src/course-runner/CourseMetadata.ts:60-62 | a class's own metadata wins; otherwise the read goes up the prototype chain (`HolderNearest`, `InheritedAlongChain`) |
| CourseMetadata.Metadata.GetLessonMeta | packages/runner-common/src/course-runner/CourseMetadata.ts:68-70 | a class's own metadata wins; otherwise the read goes up the prototype chain (`HolderNearest`, `InheritedAlongChain`) |
| CourseMetadata.Metadata.GetLessons | packages/runner-common/src/course-runner/CourseMetadata.ts:72-75 | one entry per class in the course's `lessons` array, in order, each what `getLessonMeta` reads for that class (missing when no class on its chain is registered) |
| CourseMetadata.Metadata.AddCheck | packages/runner-common/src/course-runner/CourseMetadata.ts:102-111 | the check is pushed onto the list the target finds through its prototype chain, or onto a new list when it finds none, and that list becomes the target's own. Every class or function that read the same list sees the check appended (a subclass's check reaches its parent); one that read a different list sees no change |
| CourseMetadata.Metadata.GetLessonChecks | packages/runner-common/src/course-runner/CourseMetadata.ts:113-115 | a lesson class that finds no check list on its chain yields the empty list |
| CourseMetadata.Metadata.GetTestChecks | packages/runner-common/src/course-runner/CourseMetadata.ts:117-119 | a test function that finds no check list yields the empty list |
| CourseRunner.Runner.constructor | packages/runner-common/src/course-runner/CourseRunner.ts:20-25 | the course map holds each course's metadata, as `getCourseMeta` reads it, under its slug |
| CourseRunner.CourseMapLookup | packages/runner-common/src/course-runner/CourseRunner.ts:20-25 | a slug is in the course map exactly when some course has it; the entry is that of the last course with that slug, and that course has the slug |
| CourseRunner.Runner.Test | packages/runner-common/src/course-runner/CourseRunner.ts:47-221 | unknown course, unknown lesson and a development run without a title each fail with their message and call nothing; otherwise the response and the calls made are those of the lifecycle |
| CourseRunner.RunLifecycle | packages/runner-common/src/course-runner/CourseRunner.ts:184-220 | the beforeAll block, the test loop and the afterAll call compute the lifecycle function |
| CourseRunner.RunAttempt | packages/runner-common/src/course-runner/CourseRunner.ts:110-160 | one loop turn (beforeEach, the test, afterEach, with the afterEach that ignores its result on failure) computes the attempt function |
| CourseRunner.PairCalls | packages/runner-common/src/course-runner/CourseRunner.ts:91-98 | a hook block calls only the hooks the instances define |
| CourseRunner.PairCount | packages/runner-common/src/course-runner/CourseRunner.ts:91-98 | within a hook block the first defined hook runs once; the second runs once unless the first threw |
| CourseRunner.PairOutcome | packages/runner-common/src/course-runner/CourseRunner.ts:91-99 | a hook block completes exactly when every hook it called completed; when it throws, the message is that of a hook it called |
| CourseRunner.AttemptCounts | packages/runner-common/src/course-runner/CourseRunner.ts:110-160 | each test attempt calls the lesson's afterEach exactly once when defined, and the test body exactly when beforeEach completed |
| CourseRunner.AttemptTraceSplit | packages/runner-common/src/course-runner/CourseRunner.ts:194-213 | an attempt calls the beforeEach block, then the body if beforeEach completed, then the afterEach block |
| CourseRunner.RunTestsShape | packages/runner-common/src/course-runner/CourseRunner.ts:189-216 | the loop appends one entry per test it runs and keeps the error; `passed` stays true exactly when no attempt failed; only a failing development-mode test stops it |
| CourseRunner.RunTestsCalls | packages/runner-common/src/course-runner/CourseRunner.ts:189-216 | the loop only calls the per-test hooks and bodies of the tests it ran |
| CourseRunner.UserEntries | packages/runner-common/src/course-runner/CourseRunner.ts:189-216 | in user mode the loop records exactly one entry per test, in order, and none failed exactly when every entry passed |
| CourseRunner.DevelopmentEntries | packages/runner-common/src/course-runner/CourseRunner.ts:190-192 | in development mode every recorded entry is the titled test and passed |
| CourseRunner.PassedInvariant | packages/runner-common/src/course-runner/CourseRunner.ts:69-72 | in user mode the response passes exactly when it has no error and every test entry passed |
| CourseRunner.OneEntryPerTest | packages/runner-common/src/course-runner/CourseRunner.ts:189-216 | after a completed beforeAll, the response has one entry per test in declaration order, carrying the test's title and its attempt's failure message |
| CourseRunner.BeforeAllFailure | packages/runner-common/src/course-runner/CourseRunner.ts:91-108 | a beforeAll that throws a non-empty message makes the response fail with that message and no tests; no test hook or body runs, and the lesson's afterAll runs once when defined |
| CourseRunner.HookCallCounts | packages/runner-common/src/course-runner/CourseRunner.ts:141-218 | after a completed beforeAll, each test's afterEach runs exactly once, its body exactly when beforeEach completed, and afterAll exactly once |
| CourseRunner.LoopCounts | packages/runner-common/src/course-runner/CourseRunner.ts:189-216 | the loop alone calls afterEach once per test, each body at most once, and no afterAll |
| CourseRunner.DevelopmentRunsOnlyTitled | packages/runner-common/src/course-runner/CourseRunner.ts:120-136 | in development mode only the titled test's hooks and body run, and a response that is returned passes with only that test's entries |
| CourseRunner.AllComplete | packages/runner-common/src/course-runner/CourseRunner.ts:91-218 | when nothing throws, the calls are course and lesson beforeAll, each test's full attempt, then lesson and course afterAll; every test passes |
| CourseRunner.HookBlocksComplete | packages/runner-common/src/course-runner/CourseRunner.ts:91-98 | when nothing throws, the beforeAll block calls course then lesson, and the afterAll block calls lesson then course |
| CourseRunner.RunTestScenario | packages/runner-common/src/course-runner/CourseRunner.test.ts:8-41 | a passing test yields `{passed: true, tests: [{title, passed: true}]}`; a throwing one yields a failed entry with its message |
| CourseRunner.LessonHooksScenario | packages/runner-common/src/course-runner/CourseRunner.test.ts:43-98 | the lesson hooks run in the order beforeAll, (beforeEach, test, afterEach) per test, afterAll |
| CourseRunner.CourseHooksScenario | packages/runner-common/src/course-runner/CourseRunner.test.ts:100-155 | the course hooks run in the same order |
| CourseRunner.BeforeAllScenario | packages/runner-common/src/course-runner/CourseRunner.test.ts:157-183 | a failing beforeAll yields `{passed: false, tests: [], error}` |
| CourseRunner.BeforeEachScenario | packages/runner-common/src/course-runner/CourseRunner.test.ts:185-217 | a failing beforeEach yields one failed entry per test with its message, and no top-level error |
| CourseRunner.AfterHooksScenario | packages/runner-common/src/course-runner/CourseRunner.test.ts:219-247 | afterEach runs for both failing tests and afterAll runs once |
| CourseRunner.FindLesson | packages/runner-common/src/course-runner/CourseRunner.ts:59-63 | a found lesson is the one at some position whose earlier lessons are all registered and have other slugs, so it is the first with the slug; nothing is found exactly when no lesson has it; the lookup throws only at an unregistered lesson class all of whose predecessors are registered and have other slugs |
| CourseRunner.Runner.Action | packages/runner-common/src/course-runner/CourseRunner.ts:223-266 | an unknown course, a throwing lesson lookup and an unknown action each fail with their message; otherwise the selected action's outcome becomes the response |
| CourseRunner.FindAction | packages/runner-common/src/course-runner/CourseRunner.ts:239 | the action is found exactly when some action has the name; the found action has it, and every action before its position has another name |
| CourseRunner.ActionPreference | packages/runner-common/src/course-runner/CourseRunner.ts:239-257 | a lesson action shadows a course action with the same name; a course action is used otherwise; no action exists exactly when neither has the name; a course-only action runs on the course instance |
| CourseRunner.Respond | packages/runner-common/src/course-runner/CourseRunner.ts:259-265 | a returned value becomes `{body}` and a thrown error becomes `{error: message}` |
| EditorFiles.Put | packages/runner-common/src/course-runner/CourseRunner.ts:276 | `map[file.path] = { content }` keeps the map well formed: a `__proto__` path leaves it unchanged, any other path takes the content, an existing path keeps its place, and a new path goes last |
| CourseRunner.ToFilesMap | packages/runner-common/src/course-runner/CourseRunner.ts:273-279 | the loop computes the files map of the array |
| CourseRunner.FilesMapOf | packages/runner-common/src/course-runner/CourseRunner.ts:273-279 | the map built from the array is well formed: each path once, the keys exactly the paths with a content, no `__proto__` key |
| CourseRunner.FirstIndex | packages/runner-common/src/course-runner/CourseRunner.ts:275 | the position of the first file with a path: that file has the path and no earlier one does; the length when no file has it |
| CourseRunner.FirstIndexSnoc | packages/runner-common/src/course-runner/CourseRunner.ts:275-277 | appending a file keeps an existing path's first position, and gives a new path the appended file's position |
| CourseRunner.OldKeysFirstIndex | packages/runner-common/src/course-runner/CourseRunner.ts:275-277 | every key of the map of the earlier files first occurs among them, and keeps that position when a file is appended |
| CourseRunner.NewKeyFirstIndex | packages/runner-common/src/course-runner/CourseRunner.ts:276 | a path that `map[file.path] = …` adds as a new key first occurs in the appended file |
| CourseRunner.FilesMapOrder | packages/runner-common/src/course-runner/CourseRunner.ts:273-279 | the map's keys are in the order in which their paths first occur in the array (integer-like keys: see Left out) |
| CourseRunner.FilesMapLastWins | packages/runner-common/src/course-runner/CourseRunner.ts:275-277 | a path's content is that of its last occurrence in the array |
| CourseRunner.FilesMapKeys | packages/runner-common/src/course-runner/CourseRunner.ts:273-279 | the map's keys are exactly the array's paths, except `__proto__` |
| CourseRunner.ToFilesArray | packages/runner-common/src/course-runner/CourseRunner.ts:269-271 | one file per key, in key order, with that key's content |
| CourseRunner.FilesRoundTrip | packages/runner-common/src/course-runner/CourseRunner.ts:269-279 | an array of distinct paths, none of them `__proto__`, survives map-then-array unchanged, in insertion order (integer-like keys: see Left out) |
| JavaScriptUserspace.UserspaceRootSegments | packages/runner-common/src/services/JavaScriptUserspace.ts:37 | `path.resolve('userspace/code')` is the working directory's segments followed by `userspace` and `code` |
| JavaScriptUserspace.Target | packages/runner-common/src/services/JavaScriptUserspace.ts:38 | the target of a file path is always absolute |
| JavaScriptUserspace.TargetSegments | packages/runner-common/src/services/JavaScriptUserspace.ts:38 | the target is the file path's segments resolved onto the root's, keeping a trailing '/' |
| JavaScriptUserspace.AcceptedIffBelowRoot | packages/runner-common/src/services/JavaScriptUserspace.ts:36-42 | the corrected guard accepts exactly the paths whose resolved segments extend the root's |
| JavaScriptUserspace.NoClimbAccepted | packages/runner-common/src/services/JavaScriptUserspace.ts:36-42 | a path without ".." segments is always accepted |
| JavaScriptUserspace.AcceptedImpliesAsWritten | packages/runner-common/src/services/JavaScriptUserspace.ts:40 | the corrected guard never accepts what the guard as written rejects |
| JavaScriptUserspace.SiblingAcceptedAsWritten | packages/runner-common/src/services/JavaScriptUserspace.ts:40 | for any root, a path into a sibling directory whose name extends the root's last segment passes the guard as written but is outside the root |
| JavaScriptUserspace.CodeEvilScenario | packages/runner-common/src/services/JavaScriptUserspace.ts:36-44 | in `/app`, "../code-evil/x.js" targets `/app/userspace/code-evil/x.js`; the guard as written accepts it and the corrected guard rejects it |
| JavaScriptUserspace.AddedFile | packages/runner-common/src/services/JavaScriptUserspace.ts:36-45 | succeeds exactly when the path is accepted and then writes the content at the target; a rejection writes nothing and names the target. This is the corrected guard (see Findings), and it is what keeps every file under the root |
| JavaScriptUserspace.AddedFileAsWritten | packages/runner-common/src/services/JavaScriptUserspace.ts:36-45 | `addFile` as written: succeeds exactly when the target starts with the root's text, then writes the content at the target; a rejection writes nothing and names the target |
| JavaScriptUserspace.AsWrittenAgreesWhenAccepted | packages/runner-common/src/services/JavaScriptUserspace.ts:40 | wherever the corrected guard accepts, `addFile` as written does exactly what the corrected one does |
| JavaScriptUserspace.CodeEvilEscapes | packages/runner-common/src/services/JavaScriptUserspace.ts:36-45 | in `/app`, `addFile` as written writes "../code-evil/x.js" at `/app/userspace/code-evil/x.js`, outside the root; the corrected one rejects it |
| JavaScriptUserspace.PlacementIn | packages/runner-common/src/services/JavaScriptUserspace.ts:36-42 | each path's placement is its acceptance and its target |
| JavaScriptUserspace.FirstRejected | packages/runner-common/src/services/JavaScriptUserspace.ts:25-27 | every key before the position found is accepted, and the key at it is rejected |
| JavaScriptUserspace.AddAllStopsAtFirstRejected | packages/runner-common/src/services/JavaScriptUserspace.ts:25-27 | create succeeds exactly when no path is rejected; otherwise it fails with the first rejected path's error, after writing exactly the files before it |
| JavaScriptUserspace.AddAllWritesEach | packages/runner-common/src/services/JavaScriptUserspace.ts:25-27 | when every path is accepted, the directory gains exactly the keys' targets, each holding its last writer's content |
| JavaScriptUserspace.AddAllKeeps | packages/runner-common/src/services/JavaScriptUserspace.ts:25-27 | a file no key targets keeps its content |
| JavaScriptUserspace.AddAllStep | packages/runner-common/src/services/JavaScriptUserspace.ts:25-27 | one loop turn either stops with that file's rejection or continues from the directory it wrote |
| JavaScriptUserspace.Userspace.constructor | packages/runner-common/src/services/JavaScriptUserspace.ts:17-23 | the userspace is rooted at `path.resolve('userspace/code')` and its directory is empty |
| JavaScriptUserspace.Userspace.AddFile | packages/runner-common/src/services/JavaScriptUserspace.ts:36-45 | the directory changes as `AddedFile` says. With the corrected guard, every file stays under the root |
| JavaScriptUserspace.Userspace.AddFiles | packages/runner-common/src/services/JavaScriptUserspace.ts:25-27 | the loop computes the create function and stops at the first rejected path |
| JavaScriptUserspace.Userspace.Create | packages/runner-common/src/services/JavaScriptUserspace.ts:17-30 | a fresh userspace (a missing map counts as empty) gets one file per key, in the order of `Object.keys` taken as insertion order, stopping at the first rejected path |
| JavaScriptUserspace.Userspace.InvalidateRequireCache | packages/runner-common/src/services/JavaScriptUserspace.ts:56-62 | exactly the cached modules whose name contains "userspace" are dropped; every other one is kept unchanged |
| JavaScriptUserspace.RequireCache.constructor | packages/runner-common/src/services/JavaScriptUserspace.ts:57 | the cache holds the given modules |
| NodePath.Normalize | packages/runner-common/src/services/JavaScriptUserspace.ts:38 | normalising an absolute path gives an absolute path |
| NodePath.NormalizeIdempotent | packages/runner-common/src/services/JavaScriptUserspace.ts:38 | normalising twice is normalising once |
| NodePath.JoinPath | packages/runner-common/src/services/JavaScriptUserspace.ts:38 | joining onto an absolute path gives an absolute path |
| NodePath.JoinSegments | packages/runner-common/src/services/JavaScriptUserspace.ts:38 | joining resolves the relative path's segments on top of the base's |
| NodePath.ResolvePath | packages/runner-common/src/services/JavaScriptUserspace.ts:37 | resolving against an absolute working directory gives an absolute path |
| NodePath.SegmentsRender | packages/runner-common/src/services/JavaScriptUserspace.ts:38 | a rendered path normalises back to its own segments |
| NodePath.RenderEndsWith | packages/runner-common/src/services/JavaScriptUserspace.ts:38 | a rendered path ends with '/' exactly when it is the root or a trailing '/' was asked for |
| NodePath.ResolveExtends | packages/runner-common/src/services/JavaScriptUserspace.ts:38 | resolving segments without ".." only extends the stack |
| NodePath.SplitJoinSegments | packages/runner-common/src/services/JavaScriptUserspace.ts:38 | splitting a '/'-joined list of segments without '/' gives them back |
| SolanaExecutor.PatternMatches | packages/solana-runner/src/executor.rs:190-192 | text of the shape `test NAME ... ok` or `... FAILED`, with NAME free of spaces and the gap free of line breaks, matches at its start with NAME and the verdict captured |
| SolanaExecutor.MatchShape | packages/solana-runner/src/executor.rs:190-192 | conversely, every match has that shape |
| SolanaExecutor.CapturesLeftmost | packages/solana-runner/src/executor.rs:158 | the captures are those of the leftmost match; no capture means no position matches |
| SolanaExecutor.HeaderKeyOf | packages/solana-runner/src/executor.rs:167-168 | a `---- NAME stdout ----` line starts collecting under NAME |
| SolanaExecutor.ScanLine | packages/solana-runner/src/executor.rs:157-184 | a matching line adds an `ok` test for a passed result and nothing for a failed one, leaving collection alone; any line adds at most one test and keeps the earlier ones |
| SolanaExecutor.TestResultsFromStdout | packages/solana-runner/src/executor.rs:152-188 | the loop over the received lines computes the scan function |
| SolanaExecutor.ScanSplit | packages/solana-runner/src/executor.rs:157-185 | scanning two runs of lines is scanning them one after the other |
| SolanaExecutor.OnlyPassedLines | packages/solana-runner/src/executor.rs:157-166 | without header lines, the results are exactly the passed tests' names, in order |
| SolanaExecutor.FailureSection | packages/solana-runner/src/executor.rs:167-182 | a header, body lines and an empty line add one failed test named by the header, whose error is the body lines that contain "assert", each ended by a newline |
| SolanaExecutor.CollectBody | packages/solana-runner/src/executor.rs:178-184 | while collecting, only lines containing "assert" are kept, each followed by a newline |
| SolanaExecutor.UnclosedAddsNothing | packages/solana-runner/src/executor.rs:157-188 | a section that is never closed by an empty line adds no test |
| SolanaExecutor.RunEnd | packages/solana-runner/src/executor.rs:191 | the `[^ ]+` run ends at the first space or at the end of the line |
| SolanaExecutor.TrimStartAll | packages/solana-runner/src/executor.rs:168 | `trim_start_matches` leaves no leading copy of the pattern, and what it removes is a whole number of copies of the pattern |
| SolanaExecutor.TrimEndAll | packages/solana-runner/src/executor.rs:168 | `trim_end_matches` leaves no trailing copy of the pattern, and what it removes is a whole number of copies of the pattern |
| SolanaExecutor.RepeatSnoc | packages/solana-runner/src/executor.rs:168 | one more copy of the pattern at the end is the next repetition count |
| SolanaExecutor.TrimStartStep | packages/solana-runner/src/executor.rs:168 | removing a leading copy, then some copies, removes copies only |
| SolanaExecutor.TrimEndStep | packages/solana-runner/src/executor.rs:168 | removing a trailing copy, then some copies, removes copies only |
| SolanaExecutor.AppendCopy | packages/solana-runner/src/executor.rs:168 | a string that ends with the pattern, with k copies after the remainder in front of it, is the remainder plus k + 1 copies |
| SolanaExecutor.FirstFailure | packages/solana-runner/src/executor.rs:35-40 | the file writes succeed exactly when every write does |
| SolanaExecutor.FirstFailureAt | packages/solana-runner/src/executor.rs:35-40 | the error is that of the first write that failed |
| SolanaExecutor.Prepare | packages/solana-runner/src/executor.rs:27-60 | creating the directory, copying the template, writing the files and preparing the target stop at the first failing step with its error |
| SolanaExecutor.TracingExecute | packages/solana-runner/src/executor.rs:121-150 | a process that cannot start is an error; otherwise its exit status comes back with the tests scanned from its output |
| SolanaExecutor.Performed | packages/solana-runner/src/executor.rs:23-87 | the tests come back exactly when preparation succeeds, the build succeeds and the test run starts; they are the build's then the test run's results; a failed build is "Failed to compile code; exit code = …"; a failed test run still returns its results |
| SolanaExecutor.PerformTest | packages/solana-runner/src/executor.rs:23-87 | the steps compute the performed function |
| SolanaTypes.FailedCount | packages/solana-runner/src/types.rs:46-48 | at most the number of tests |
| SolanaTypes.FailedCountZero | packages/solana-runner/src/types.rs:46-49 | no test failed exactly when every test passed |
| SolanaTypes.FailedCountAppend | packages/solana-runner/src/types.rs:46-48 | the failure count of a concatenation is the sum of the counts |
| SolanaTypes.FromTests | packages/solana-runner/src/types.rs:42-52 | no tests give "No tests executed."; otherwise the tests are kept, the response passes exactly when all passed, and a failure says "F of N tests failed" |
| SolanaTypes.TestsJson | packages/solana-runner/src/types.rs:21-28 | the `tests` array has one JSON object per test, in order |
| SolanaTypes.TestJsonRoundTrip | packages/solana-runner/src/types.rs:55-61 | a test reads back from its JSON exactly, though a missing error is left out |
| SolanaTypes.TestsJsonRoundTrip | packages/solana-runner/src/types.rs:21-28 | a list of tests reads back from its JSON array |
| SolanaTypes.ResponseJsonRoundTrip | packages/solana-runner/src/types.rs:21-28 | a response reads back from its JSON exactly |
| SolanaTypes.OkAndErrorJson | packages/solana-runner/src/types.rs:63-71 | an ok test serialises to a title and `passed: true` only; an error test adds `error` |
| SolanaTypes.ResponseJsonScenario | packages/solana-runner/src/types.rs:100-135 | a failing response without an error serialises to `passed` then `tests`, and each test's error appears only when it has one |
| SolanaLesson.RegisteredLookup | packages/solana-runner/src/lesson.rs:22-37 | a slug is registered exactly when some directory is named by the prefix followed by it, and names that directory |
| SolanaLesson.Loaded | packages/solana-runner/src/lesson.rs:11-39 | a base directory that cannot be canonicalised is an error; a loaded course's base is the canonical path |
| SolanaLesson.FirstError | packages/solana-runner/src/lesson.rs:22-23 | the listing is usable exactly when every entry can be read |
| SolanaLesson.FirstErrorAt | packages/solana-runner/src/lesson.rs:22-23 | the error is that of the first unreadable entry |
| SolanaLesson.FromDir | packages/solana-runner/src/lesson.rs:11-39 | the loop computes the loaded course |
| SolanaLesson.LessonOf | packages/solana-runner/src/lesson.rs:41-43 | a lesson is found exactly when its slug is registered |
| SolanaLesson.LoadedLesson | packages/solana-runner/src/lesson.rs:11-43 | a loaded course finds a slug exactly when a directory named by the prefix and the slug is listed, and returns that directory |
| SolanaMain.SortProperties | packages/solana-runner/src/main.rs:71 | the sort by title gives a sorted permutation of the results |
| SolanaMain.SortStable | packages/solana-runner/src/main.rs:71 | the sort is stable: the entries of each title keep their order |
| SolanaMain.SortFailedCount | packages/solana-runner/src/main.rs:71 | sorting keeps the number of failed tests |
| SolanaMain.InsertSorted | packages/solana-runner/src/main.rs:71 | inserting into a sorted list keeps it sorted |
| SolanaMain.InsertMultiset | packages/solana-runner/src/main.rs:71 | inserting adds exactly the one entry |
| SolanaMain.Solve | packages/solana-runner/src/main.rs:53-81 | the handler computes the solved response |
| SolanaMain.SolvedResponse | packages/solana-runner/src/main.rs:53-81 | an unknown lesson gives "Lesson not found: …" and an executor error becomes an error response; otherwise the response holds the results sorted by title, stable and complete, passes exactly when all passed, and counts the failures |
| SolanaMain.Startup | packages/solana-runner/src/main.rs:31-35 | the server starts exactly when a lesson is registered, and otherwise fails with "No lessons found in …" |
| Text.FindNamed | packages/content/content-common/src/types/ETopic.ts:13-16 | `Object.values(E).includes(str)` then the cast: the member found has value `str`, and none is found exactly when no member has it |
| Text.SplitJoin | packages/docker-runner/src/services/dockerService.ts:114 | splitting on a separator and joining back gives the original text |
| Text.NatToStringValue | packages/solana-runner/src/types.rs:50 | the decimal rendering of a count reads back as that count |
| Text.NatToStringInjective | packages/solana-runner/src/types.rs:50 | distinct counts render differently |
| Text.LexLeTotal | packages/solana-runner/src/main.rs:71 | any two titles are ordered one way or the other |
| Text.LexLeTransitive | packages/solana-runner/src/main.rs:71 | the title order is transitive |
| Text.LexLeAntisymmetric | packages/solana-runner/src/main.rs:71 | titles ordered both ways are equal |

## Left out

- The Docker engine, its stream, the timer and `container.stop`/`remove` are not modelled. The engine's report is a parameter of `RunUnrestricted` (`EngineRun`). The race between the timer and `container.wait` is one boolean, `didTimeout`.
- `JSON.stringify` of the args and `JSON.parse` of the result line are not modelled. The args are an already-serialised string, and a result is the raw payload text (`Parsed(payload)`). A payload that is not JSON, which makes `JSON.parse` throw, is not modelled. The payload `null`, which `JSON.parse` turns into `null`, stays `Parsed("null")`.
- `process.env.DOCKER_TAG` and `RUNNERS_HOSTNAME` are optional parameters.
- DockerService.Run: the model uses the own-key lookup of the allow list, not the prototype-chain lookup. See Findings.
- In `executor.rs`, the file system, `fs_extra` and the child processes are not modelled. Neither are `rsync`, `cargo`, the tokio tasks and the line channel. Each step is a given outcome, and each process is given its output lines and exit status. Lines on stderr are only logged, and are left out.
- `cargo_cmd` is left out: choosing the cargo executable does not affect the results.
- `tests_failed` in `test_results_from_stdout` is collected but never read. The model keeps it but no property mentions it.
- The axum server, the route table, the `COURSE` static, tracing and logging are not modelled. `Startup` is the lesson-count check and `Solve` is the handler's body.
- SolanaMain.Solve: every request works in the one shared directory `/tmp/session_0001` (main.rs:55-66). Concurrent requests racing on it are not modelled; each call is taken on its own.
- Deserialising `TTestRequest` (the `de_solve_request` test) is not modelled. Only the response's serialisation is.
- `Course::from_dir`: `path.file_name()` cannot be missing for an entry of a directory listing, so its error is left out. A `DirEntry` is a name and whether it is a directory. `to_string_lossy` is the identity on the model's strings.
- CourseMetadata.Classes: which class a constructor `extends` is given, and every class extends one created before it, as JavaScript requires. Prototypes changed after creation (`Object.setPrototypeOf`) are left out.
- `getTests` and `getActions` are not modelled as reflection. The prototype walk and the `testMetaKey` lookup are replaced by the fixed `Classes` declaration.
- `getCourses` is left out; it only lists the course map's values.
- The decorators that register metadata (`course.ts`), `CourseChecker.ts` and `TestSuiteService.ts` are not part of this model.
- CourseRunner.Runner.constructor: it requires every course class to find course metadata on its prototype chain. The source then reads `.slug` of `undefined` and throws a TypeError, which the model does not reproduce.
- TestSuiteReporter.Reporter.GetTestsResult: returns the entries as a value. The source returns the live `_results` array, so later `onPass`/`onFail` events also change a result already handed out; that aliasing is not modelled.
- `lastTestResult` is a hook for the runner's own tests and is not modelled.
- The `context`, `files` and `result` fields assigned to the course and lesson instances are left out. Hooks and tests are given outcomes and do not read them. Neither are the `onLessonComplete` callbacks or the Mocha wiring.
- In development mode a rethrown error is an error result: a rejected promise becomes `Err` with the message. The stack trace Mocha would print is left out.
- CourseRunner.BeforeAllFailure: proved only for a non-empty message. The source tests `result.error` for truthiness, so a beforeAll that throws with an empty message goes on to run the tests. That case is modelled as written; the lemma does not cover it.
- The target of an action found only on the lesson is the lesson instance, and one found on the course is the course instance. An action on both runs the lesson's function on the course instance. This follows the source as written: `target` prefers the course (line 250) while `action` prefers the lesson (line 251).
- `Object.entries` and `Object.keys` list integer-like keys first, in ascending order. `toFilesArray` therefore reorders such paths. `create` adds files in `Object.keys` order (JavaScriptUserspace.ts:25), and since it stops at the first rejected path, that order decides which files are written. The model keeps insertion order for every key.
- JavaScriptUserspace.Userspace.AddFile, JavaScriptUserspace.Userspace.AddFiles, JavaScriptUserspace.Userspace.Create, JavaScriptUserspace.AddedFile, JavaScriptUserspace.PlacementIn, JavaScriptUserspace.AddAllStep: these use the corrected segment-prefix guard (`Accepted`), not the plain string-prefix test of JavaScriptUserspace.ts:40. `AddedFileAsWritten` models the test as written. See Findings.
- A `__proto__` path in `toFilesMap` sets the map's prototype instead of adding a key. The model drops it, and the round trip assumes no such path.
- JavaScriptUserspace's `import` and `mockModule` are left out. They call Node's module loader and `mock-require`, which this model does not contain.
- `fs.rm` and `fs.mkdir` of `userspace/code` are modelled as a fresh, empty directory. Each file write is a map update; write errors and `await` ordering are left out.
- Node's path functions are modelled on POSIX absolute paths only. Windows separators and drive letters are out.
- `RunOpts` passed as `undefined` is a `null` reference, and `opts || {}` is then a local default.
- The editor store's React provider, `createStore`, subscriptions and the hooks that read the store are left out. `headerContent`, a React node, is an opaque value, and `undefined` is `None`.
- Every integer in the model is unbounded. The sources' JavaScript numbers and Rust `usize` never come near their limits for the values involved.

## Findings

| source | as written | input that shows it | evidently intended | confidence | as-written member | corrected member |
|---|---|---|---|---|---|---|
| packages/docker-runner/src/services/dockerService.ts:29 | `allowedImages[image]` also finds properties inherited from `Object.prototype`, which are truthy and have no `timeout` or `memory` | image `"constructor"` passes the allow-list check and runs with the default 2 s / 24 MiB limits | only the three listed images may run, each with its own limits | not executed | AllowedImages.PrototypeNameBypassesAllowList | DockerService.Run |
| packages/runner-common/src/services/JavaScriptUserspace.ts:40 | the guard is a plain string-prefix test of the normalised target against the root | with working directory `/app`, file path `"../code-evil/x.js"` targets `/app/userspace/code-evil/x.js`, which starts with `/app/userspace/code`, so it is written outside the userspace directory | only the root itself or paths below `root + "/"` are accepted | not executed | JavaScriptUserspace.CodeEvilEscapes | JavaScriptUserspace.Userspace.AddFile |
