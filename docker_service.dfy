/** The Docker runner's decisions around one container run: the allow-list gate,
    default limits, the container specification, the classification of how the
    run ended and the scan of the captured output for the result line.

    The container engine itself (create, attach, start, wait, stop, remove) and
    the race between the timer and `wait()` are inputs: an `EngineRun` says which
    container was created, which text chunks its stream delivered, whether the
    timer fired first and with which status code `wait()` resolved. */
module DockerService {
  import opened Wrappers
  import opened Text
  import AllowedImages

  /** The `action` argument: `'test' | 'action'`. */
  datatype RunAction = Test | Action

  function ActionName(a: RunAction): string
  {
    match a
    case Test => "test"
    case Action => "action"
  }

  /** The optional limits of `runUnrestricted`. The method fills in the defaults
      in the caller's object. */
  class RunOpts {
    var timeout: Option<int>
    var memory: Option<int>

    constructor (timeout: Option<int>, memory: Option<int>)
      ensures this.timeout == timeout && this.memory == memory
    {
      this.timeout := timeout;
      this.memory := memory;
    }
  }

  const DefaultTimeout: int := 2_000
  const DefaultMemory: int := 24 * 1024 * 1024

  /** `v || d` for an optional number: `undefined` and `0` are falsy. */
  function OrDefault(v: Option<int>, d: int): int
  {
    if v.None? || v.value == 0 then d else v.value
  }

  /** The limit a run gets: the given one if it is set and non-zero, the default
      otherwise. */
  lemma OrDefaultChoice(v: Option<int>, d: int)
    ensures v == None ==> OrDefault(v, d) == d
    ensures v == Some(0) ==> OrDefault(v, d) == d
    ensures v.Some? && v.value != 0 ==> OrDefault(v, d) == v.value
    ensures d != 0 ==> OrDefault(v, d) != 0
  {
  }

  /** `process.env.DOCKER_TAG || 'local'`: unset and empty both select "local". */
  function ImageTag(dockerTag: Option<string>): string
  {
    if dockerTag.None? || dockerTag.value == "" then "local" else dockerTag.value
  }

  datatype HostConfig = HostConfig(autoRemove: bool, memory: int, memorySwappiness: int)

  /** The options given to `createContainer`. */
  datatype ContainerSpec = ContainerSpec(
    cmd: seq<string>,
    image: string,
    hostConfig: HostConfig,
    env: seq<string>,
    networkDisabled: bool,
    attachStdin: bool,
    tty: bool,
    openStdin: bool)

  const ActionVar: string := "DOCKER_RUNNER_ACTION"
  const ArgsVar: string := "DOCKER_RUNNER_ARGS"

  /** The container of one run; `argsJson` is `JSON.stringify(args)`. */
  function BuildSpec(image: string, action: RunAction, argsJson: string, memory: int,
                     dockerTag: Option<string>): ContainerSpec
  {
    ContainerSpec(
      cmd := [],
      image := image + ":" + ImageTag(dockerTag),
      hostConfig := HostConfig(autoRemove := true, memory := memory, memorySwappiness := memory),
      env := [ActionVar + "=" + ActionName(action), ArgsVar + "=" + argsJson],
      networkDisabled := true,
      attachStdin := false,
      tty := true,
      openStdin := false)
  }

  /** How a process inside the container reads a variable from its environment:
      the text after `name=` in the first entry that starts with it. */
  function EnvValue(env: seq<string>, name: string): Option<string>
  {
    if env == [] then None
    else if StartsWith(env[0], name + "=") then Some(env[0][|name| + 1..])
    else EnvValue(env[1..], name)
  }

  /** The image name of an `image:tag` reference whose tag has no colon: the text
      before the last colon. */
  function ImageName(reference: string): string
  {
    if reference == [] then []
    else if reference[|reference| - 1] == ':' then reference[..|reference| - 1]
    else ImageName(reference[..|reference| - 1])
  }

  lemma {:induction false} ImageNameOfReference(image: string, tag: string)
    requires forall i | 0 <= i < |tag| :: tag[i] != ':'
    ensures ImageName(image + ":" + tag) == image
    decreases |tag|
  {
    var reference := image + ":" + tag;
    if tag == [] {
      assert reference[..|reference| - 1] == image;
    } else {
      assert reference[..|reference| - 1] == image + ":" + tag[..|tag| - 1];
      ImageNameOfReference(image, tag[..|tag| - 1]);
    }
  }

  /** The container is sandboxed: no network, removed on exit, swap pinned to the
      memory limit; it runs the given image under the deployment tag, and its
      entry point finds exactly the action and the JSON arguments in its
      environment. */
  lemma SpecIsSandboxed(image: string, action: RunAction, argsJson: string, memory: int,
                        dockerTag: Option<string>)
    requires dockerTag.Some? ==> forall i | 0 <= i < |dockerTag.value| :: dockerTag.value[i] != ':'
    ensures var spec := BuildSpec(image, action, argsJson, memory, dockerTag);
      && spec.networkDisabled && spec.hostConfig.autoRemove
      && spec.hostConfig.memory == memory && spec.hostConfig.memorySwappiness == memory
      && ImageName(spec.image) == image
      && |spec.env| == 2
      && EnvValue(spec.env, ActionVar) == Some(ActionName(action))
      && EnvValue(spec.env, ArgsVar) == Some(argsJson)
  {
    var spec := BuildSpec(image, action, argsJson, memory, dockerTag);
    ImageNameOfReference(image, ImageTag(dockerTag));
    assert StartsWith(spec.env[0], ActionVar + "=");
    assert !StartsWith(spec.env[0], ArgsVar + "=") by {
      assert spec.env[0][15] != (ArgsVar + "=")[15];
    }
    assert StartsWith(spec.env[1], ArgsVar + "=");
  }

  /** The `result` field: `null` on the error paths, `undefined` when no result
      line was printed, otherwise the text handed to `JSON.parse`. */
  datatype ResultValue = Null | Undefined | Parsed(json: string)

  datatype RunResult = RunResult(result: ResultValue, output: string, error: Option<string>,
                                 containerId: string)

  /** What the engine did during one run. */
  datatype EngineRun = EngineRun(containerId: string, chunks: seq<string>, didTimeout: bool,
                                 statusCode: int)

  /** What the runner handed to the engine: the container and the timer. */
  datatype Launch = Launch(spec: ContainerSpec, timeoutMillis: int)

  datatype Execution = Execution(launch: Launch, result: RunResult)

  const ResultPrefix: string := "DOCKER_RUNNER_RESULT="
  const LineBreak: string := "\r\n"
  const TimeoutMessage: string := "Your code took too long to execute."

  function ExitMessage(statusCode: int): string
  {
    "Container exited with a status code " + IntToString(statusCode) + "."
  }

  /** The result of the result-line protocol: the payload of the last line that
      starts with the prefix, `undefined` if there is none. */
  function LastResultLine(lines: seq<string>): ResultValue
  {
    if lines == [] then Undefined
    else if StartsWith(lines[|lines| - 1], ResultPrefix) then Parsed(lines[|lines| - 1][|ResultPrefix|..])
    else LastResultLine(lines[..|lines| - 1])
  }

  /** The last result line wins, whatever came before it. */
  lemma {:induction false} LastResultLineWins(lines: seq<string>, k: nat)
    requires k < |lines| && StartsWith(lines[k], ResultPrefix)
    requires forall j | k < j < |lines| :: !StartsWith(lines[j], ResultPrefix)
    ensures LastResultLine(lines) == Parsed(lines[k][|ResultPrefix|..])
    decreases |lines|
  {
    if k < |lines| - 1 {
      LastResultLineWins(lines[..|lines| - 1], k);
    }
  }

  /** The result is `undefined` exactly when no line carries the prefix, and the
      scan never yields the `Null` the error paths set (a payload reading `null`
      is a `Parsed` text). */
  lemma {:induction false} NoResultLine(lines: seq<string>)
    ensures LastResultLine(lines) == Undefined <==> forall j | 0 <= j < |lines| :: !StartsWith(lines[j], ResultPrefix)
    ensures LastResultLine(lines) != Null
    decreases |lines|
  {
    if lines != [] {
      NoResultLine(lines[..|lines| - 1]);
      if !StartsWith(lines[|lines| - 1], ResultPrefix) {
        forall j | 0 <= j < |lines| - 1
          ensures lines[..|lines| - 1][j] == lines[j]
        {
        }
      }
    }
  }

  /** Scans the captured output line by line; each result line overwrites the
      candidate. */
  method ScanResult(output: string) returns (result: ResultValue)
    ensures result == LastResultLine(Split(output, LineBreak))
  {
    var lines := Split(output, LineBreak);
    result := Undefined;
    for i := 0 to |lines|
      invariant result == LastResultLine(lines[..i])
    {
      assert lines[..i + 1][..i] == lines[..i];
      if StartsWith(lines[i], ResultPrefix) {
        result := Parsed(lines[i][|ResultPrefix|..]);
      }
    }
    assert lines[..|lines|] == lines;
  }

  /** Classifies a finished run, in priority order: timed out, non-zero exit,
      success. Every outcome carries the whole output and the container id. */
  method Finish(didTimeout: bool, statusCode: int, output: string, containerId: string)
    returns (r: RunResult)
    ensures r.output == output && r.containerId == containerId
    ensures didTimeout ==> r.result == Null && r.error == Some(TimeoutMessage)
    ensures !didTimeout && statusCode != 0 ==> r.result == Null && r.error == Some(ExitMessage(statusCode))
    ensures !didTimeout && statusCode == 0 ==>
      r.error == None && r.result == LastResultLine(Split(output, LineBreak))
  {
    if didTimeout {
      return RunResult(Null, output, Some(TimeoutMessage), containerId);
    }
    if statusCode != 0 {
      return RunResult(Null, output, Some(ExitMessage(statusCode)), containerId);
    }
    var result := ScanResult(output);
    r := RunResult(result, output, None, containerId);
  }

  function Concat(chunks: seq<string>): string
  {
    if chunks == [] then "" else Concat(chunks[..|chunks| - 1]) + chunks[|chunks| - 1]
  }

  /** `runUnrestricted`: resolves the limits (writing them back into `opts`),
      builds the container and classifies the run the engine reports. */
  method RunUnrestricted(image: string, action: RunAction, argsJson: string, opts: RunOpts?,
                         dockerTag: Option<string>, engine: EngineRun)
    returns (ex: Execution)
    modifies opts
    ensures opts != null ==> opts.timeout == Some(OrDefault(old(opts.timeout), DefaultTimeout))
    ensures opts != null ==> opts.memory == Some(OrDefault(old(opts.memory), DefaultMemory))
    ensures var timeout := if opts == null then DefaultTimeout else OrDefault(old(opts.timeout), DefaultTimeout);
      var memory := if opts == null then DefaultMemory else OrDefault(old(opts.memory), DefaultMemory);
      ex.launch == Launch(BuildSpec(image, action, argsJson, memory, dockerTag), timeout)
    ensures ex.result.output == Concat(engine.chunks) && ex.result.containerId == engine.containerId
    ensures engine.didTimeout ==> ex.result.result == Null && ex.result.error == Some(TimeoutMessage)
    ensures !engine.didTimeout && engine.statusCode != 0 ==>
      ex.result.result == Null && ex.result.error == Some(ExitMessage(engine.statusCode))
    ensures !engine.didTimeout && engine.statusCode == 0 ==>
      ex.result.error == None && ex.result.result == LastResultLine(Split(Concat(engine.chunks), LineBreak))
  {
    var o := opts;
    if o == null {
      o := new RunOpts(None, None);
    }
    o.timeout := Some(OrDefault(o.timeout, DefaultTimeout));
    o.memory := Some(OrDefault(o.memory, DefaultMemory));
    var spec := BuildSpec(image, action, argsJson, o.memory.value, dockerTag);
    var launch := Launch(spec, o.timeout.value);

    var output := "";
    for i := 0 to |engine.chunks|
      invariant output == Concat(engine.chunks[..i])
    {
      assert engine.chunks[..i + 1][..i] == engine.chunks[..i];
      output := output + engine.chunks[i];
    }
    assert engine.chunks[..|engine.chunks|] == engine.chunks;

    var result := Finish(engine.didTimeout, engine.statusCode, output, engine.containerId);
    ex := Execution(launch, result);
  }

  /** `run`: rejects an image outside the allow-list before any container work,
      and otherwise runs it with exactly the table's limits. */
  method Run(image: string, action: RunAction, argsJson: string, dockerTag: Option<string>,
             engine: EngineRun)
    returns (r: Result<Execution>)
    ensures image !in AllowedImages.Table ==> r == Err("Image " + image + " is not allowed")
    ensures image in AllowedImages.Table ==> r.Ok?
    ensures r.Ok? ==> (
      && image in AllowedImages.Table
      && r.value.launch.timeoutMillis == AllowedImages.Table[image].timeout.value
      && r.value.launch.spec == BuildSpec(image, action, argsJson, AllowedImages.Table[image].memory.value, dockerTag)
      && r.value.result.output == Concat(engine.chunks)
      && r.value.result.containerId == engine.containerId
      && (engine.didTimeout ==> r.value.result.error == Some(TimeoutMessage)))
  {
    var entry := AllowedImages.Lookup(image);
    if entry.None? {
      return Err("Image " + image + " is not allowed");
    }
    AllowedImages.EveryEntrySetsLimits(image);
    var opts := new RunOpts(entry.value.timeout, entry.value.memory);
    var ex := RunUnrestricted(image, action, argsJson, opts, dockerTag, engine);
    r := Ok(ex);
  }

  /** A container that printed one result line, followed by a line break, and
      exited with 0 yields that line's payload (dockerService.test.ts, first
      case, where the payload is `{"passed":true}`). */
  lemma SingleResultLine(payload: string)
    requires forall i | 0 <= i < |payload| :: payload[i] != '\r'
    ensures LastResultLine(Split(ResultPrefix + payload + LineBreak, LineBreak)) == Parsed(payload)
  {
    var line := ResultPrefix + payload;
    PrefixHasNoCarriageReturn();
    assert forall i | 0 <= i < |line| :: line[i] != LineBreak[0] by {
      forall i | 0 <= i < |line| ensures line[i] != '\r' {
        if i < |ResultPrefix| { assert line[i] == ResultPrefix[i]; }
        else { assert line[i] == payload[i - |ResultPrefix|]; }
      }
    }
    SplitTerminatedLine(line, LineBreak);
    assert line[..|ResultPrefix|] == ResultPrefix;
    assert line[|ResultPrefix|..] == payload;
    LastResultLineWins([line, ""], 0);
  }

  lemma PrefixHasNoCarriageReturn()
    ensures forall i | 0 <= i < |ResultPrefix| :: ResultPrefix[i] != '\r'
  {
  }

  /** An out-of-memory kill is reported through the generic exit message. */
  lemma OutOfMemoryExample()
    ensures ExitMessage(137) == "Container exited with a status code 137."
  {
  }
}
