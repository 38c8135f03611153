/** The development editor's table of runner services: each runner answers on
    a fixed port of the runners' host. */
module RunnerUrl {
  import opened Wrappers
  import opened Text

  const Runners := ["docker-runner", "func", "motoko", "solidity", "azle", "solana"]

  /** The port of a known runner. */
  function Port(runner: string): Option<nat>
  {
    match runner
    case "docker-runner" => Some(7009)
    case "func" => Some(7080)
    case "motoko" => Some(7002)
    case "solidity" => Some(7000)
    case "azle" => Some(7004)
    case "solana" => Some(7005)
    case _ => None
  }

  /** `process.env.RUNNERS_HOSTNAME || 'localhost'`. */
  function Hostname(env: Option<string>): (h: string)
    ensures env.Some? && env.value != "" ==> h == env.value
    ensures env.None? || env.value == "" ==> h == "localhost"
  {
    if env.Some? && env.value != "" then env.value else "localhost"
  }

  /** `getRunnerUrl`: `http://<host>:<port>` for a known runner, and an error
      naming any other runner. */
  function GetRunnerUrl(runner: string, env: Option<string>): (r: Result<string>)
    ensures r.Ok? <==> runner in Runners
    ensures r.Ok? ==> r.value == "http://" + Hostname(env) + ":" + NatToString(Port(runner).value)
    ensures r.Err? ==> r.msg == "Runner " + runner + " not supported"
  {
    match Port(runner)
    case Some(port) => Ok("http://" + Hostname(env) + ":" + NatToString(port))
    case None => Err("Runner " + runner + " not supported")
  }

  /** The table gives each runner its documented port. */
  lemma Ports()
    ensures Port("docker-runner") == Some(7009) && Port("func") == Some(7080) && Port("motoko") == Some(7002)
    ensures Port("solidity") == Some(7000) && Port("azle") == Some(7004) && Port("solana") == Some(7005)
  {
  }

  /** Distinct runners are served on distinct ports. */
  lemma DistinctPorts(a: string, b: string)
    requires a in Runners && b in Runners && a != b
    ensures Port(a).Some? && Port(b).Some? && Port(a) != Port(b)
  {
  }

  /** Distinct runners get distinct URLs on the same host. */
  lemma DistinctUrls(a: string, b: string, env: Option<string>)
    requires a in Runners && b in Runners && a != b
    ensures GetRunnerUrl(a, env).Ok? && GetRunnerUrl(b, env).Ok?
    ensures GetRunnerUrl(a, env).value != GetRunnerUrl(b, env).value
  {
    DistinctPorts(a, b);
    var prefix := "http://" + Hostname(env) + ":";
    var pa := NatToString(Port(a).value);
    var pb := NatToString(Port(b).value);
    if prefix + pa == prefix + pb {
      assert pa == (prefix + pa)[|prefix|..];
      NatToStringInjective(Port(a).value, Port(b).value);
    }
  }
}
