/** `RunScan` (scan.go:26-95) as a pipeline of stages whose outcomes are given.

    The stages, in order: find the `nmap` binary, set up the standard-error
    and standard-output pipes, start the process, read all of standard
    output, read all of standard error, wait for the process, parse the XML
    on standard output, clean the parsed scan. The first stage that fails
    ends the run with no scan. A failed wait reports the wait error, the
    captured standard error and the captured standard output, one per line.

    The operating-system calls are not modelled: `lookPath` is what looking
    up `nmap` returned, and `exec(path, args)` is what each later process
    stage returned for the command `path args...`. The XML parser and the
    host cleaning are parameters, since scan.go only calls them.
 */
module Runner {
  import opened Wrappers
  import opened ArgBuilder
  import opened Normalizer

  /** What each process stage of one nmap invocation returned. */
  datatype Process = Process(
    stderrPipe: Outcome,
    stdoutPipe: Outcome,
    start: Outcome,
    stdout: Result<string>,
    stderr: Result<string>,
    wait: Outcome)

  /** The process was set up, started and both of its streams read. */
  predicate Drained(p: Process) {
    p.stderrPipe.Pass? && p.stdoutPipe.Pass? && p.start.Pass? && p.stdout.Ok? && p.stderr.Ok?
  }

  /** The process ran to completion with a success status. */
  predicate Succeeded(p: Process) {
    Drained(p) && p.wait.Pass?
  }

  /** The error text of a failed wait: the exit error, standard error and
      standard output, separated by newlines. */
  function WaitError(exitError: string, stderr: string, stdout: string): string
  {
    exitError + "\n" + stderr + "\n" + stdout
  }

  /** One `RunScan` call. */
  function RunScan<R, H>(
    hosts: seq<string>, ports: seq<int>, opts: seq<string>,
    lookPath: Result<string>,
    exec: (string, seq<string>) -> Process,
    parseXML: string -> Result<RawScan<R>>,
    cleanHost: R -> H): (r: Result<Scan<H>>)
    ensures lookPath.Err? ==> r == Err(lookPath.msg)
    ensures r.Ok? <==>
      lookPath.Ok?
      && var p := exec(lookPath.value, BuildArgs(hosts, ports, opts));
      Succeeded(p) && parseXML(p.stdout.value).Ok?
    ensures r.Ok? ==>
      var p := exec(lookPath.value, BuildArgs(hosts, ports, opts));
      r.value == CleanScan(parseXML(p.stdout.value).value, cleanHost)
    ensures lookPath.Ok? ==>
      var p := exec(lookPath.value, BuildArgs(hosts, ports, opts));
      Drained(p) && p.wait.Fail? ==> r == Err(WaitError(p.wait.msg, p.stderr.value, p.stdout.value))
    ensures lookPath.Ok? ==>
      var p := exec(lookPath.value, BuildArgs(hosts, ports, opts));
      Succeeded(p) && parseXML(p.stdout.value).Err? ==> r == Err(parseXML(p.stdout.value).msg)
  {
    match lookPath
    case Err(e) => Err(e)
    case Ok(nmapPath) =>
      var cmd := exec(nmapPath, BuildArgs(hosts, ports, opts));
      if cmd.stderrPipe.Fail? then Err(cmd.stderrPipe.msg)
      else if cmd.stdoutPipe.Fail? then Err(cmd.stdoutPipe.msg)
      else if cmd.start.Fail? then Err(cmd.start.msg)
      else if cmd.stdout.Err? then Err(cmd.stdout.msg)
      else if cmd.stderr.Err? then Err(cmd.stderr.msg)
      else if cmd.wait.Fail? then Err(WaitError(cmd.wait.msg, cmd.stderr.value, cmd.stdout.value))
      else
        match parseXML(cmd.stdout.value)
        case Err(e) => Err(e)
        case Ok(raw) => Ok(CleanScan(raw, cleanHost))
  }

  /** A read's result seen only as success or failure. */
  function ResultOutcome<T>(r: Result<T>): Outcome {
    if r.Ok? then Pass else Fail(r.msg)
  }

  /** The outcomes of the process stages before the wait, in the order
      scan.go checks them: standard-error pipe, standard-output pipe, start,
      reading standard output, reading standard error. */
  function LaunchOutcomes(p: Process): seq<Outcome> {
    [p.stderrPipe, p.stdoutPipe, p.start, ResultOutcome(p.stdout), ResultOutcome(p.stderr)]
  }

  /** The error of the first failed outcome in `outcomes`, if any. */
  function FirstFailure(outcomes: seq<Outcome>): (r: Option<string>)
    decreases |outcomes|
    ensures r.None? <==> forall i | 0 <= i < |outcomes| :: outcomes[i].Pass?
    ensures r.Some? ==> exists k | 0 <= k < |outcomes| ::
              outcomes[k] == Fail(r.value) && forall i | 0 <= i < k :: outcomes[i].Pass?
  {
    if |outcomes| == 0 then None
    else if outcomes[0].Fail? then Some(outcomes[0].msg)
    else
      var rest := FirstFailure(outcomes[1..]);
      assert forall i | 1 <= i < |outcomes| :: outcomes[i] == outcomes[1..][i - 1];
      rest
  }

  /** A launch-stage failure is reported as-is: the run fails with the error
      of the first failed stage in the order scan.go checks them. */
  lemma LaunchFailureReportedAsIs<R, H>(
    hosts: seq<string>, ports: seq<int>, opts: seq<string>,
    path: string,
    exec: (string, seq<string>) -> Process,
    parseXML: string -> Result<RawScan<R>>,
    cleanHost: R -> H)
    requires !Drained(exec(path, BuildArgs(hosts, ports, opts)))
    ensures
      var p := exec(path, BuildArgs(hosts, ports, opts));
      FirstFailure(LaunchOutcomes(p)).Some?
      && RunScan(hosts, ports, opts, Ok(path), exec, parseXML, cleanHost)
         == Err(FirstFailure(LaunchOutcomes(p)).value)
  {
    var p := exec(path, BuildArgs(hosts, ports, opts));
    var os := LaunchOutcomes(p);
    assert os[1..] == [os[1], os[2], os[3], os[4]];
    assert os[1..][1..] == [os[2], os[3], os[4]];
    assert os[1..][1..][1..] == [os[3], os[4]];
    assert os[1..][1..][1..][1..] == [os[4]];
  }

  /** nmap is only ever invoked with the vector `BuildArgs` produces: two
      environments that agree on that one command give the same result. */
  lemma OnlyBuiltArgsMatter<R, H>(
    hosts: seq<string>, ports: seq<int>, opts: seq<string>,
    path: string,
    exec1: (string, seq<string>) -> Process,
    exec2: (string, seq<string>) -> Process,
    parseXML: string -> Result<RawScan<R>>,
    cleanHost: R -> H)
    requires exec1(path, BuildArgs(hosts, ports, opts)) == exec2(path, BuildArgs(hosts, ports, opts))
    ensures RunScan(hosts, ports, opts, Ok(path), exec1, parseXML, cleanHost)
         == RunScan(hosts, ports, opts, Ok(path), exec2, parseXML, cleanHost)
  {
  }

  /** The parser is only reached after a successful wait: when any earlier
      stage fails, which parser is plugged in makes no difference. */
  lemma ParseOnlyAfterSuccessfulWait<R, H>(
    hosts: seq<string>, ports: seq<int>, opts: seq<string>,
    lookPath: Result<string>,
    exec: (string, seq<string>) -> Process,
    parse1: string -> Result<RawScan<R>>,
    parse2: string -> Result<RawScan<R>>,
    cleanHost: R -> H)
    requires !(lookPath.Ok? && Succeeded(exec(lookPath.value, BuildArgs(hosts, ports, opts))))
    ensures RunScan(hosts, ports, opts, lookPath, exec, parse1, cleanHost).Err?
    ensures RunScan(hosts, ports, opts, lookPath, exec, parse1, cleanHost)
         == RunScan(hosts, ports, opts, lookPath, exec, parse2, cleanHost)
  {
  }

  /** Two hosts, ports 22 and 80, option `-sV`: nmap receives
      `-oX - -sV -p 22,80, 10.0.0.1 10.0.0.2`, and a clean exit whose report
      lists two hosts yields a scan of those two hosts, in report order. */
  lemma TwoHostScenario<R, H>(
    path: string,
    exec: (string, seq<string>) -> Process,
    parseXML: string -> Result<RawScan<R>>,
    cleanHost: R -> H,
    report: string, displayArgs: string, first: R, second: R)
    requires
      var p := exec(path, ["-oX", "-", "-sV", "-p", "22,80,", "10.0.0.1", "10.0.0.2"]);
      Succeeded(p) && p.stdout.value == report
    requires parseXML(report) == Ok(RawScan(displayArgs, [first, second]))
    ensures RunScan(["10.0.0.1", "10.0.0.2"], [22, 80], ["-sV"], Ok(path), exec, parseXML, cleanHost)
         == Ok(Scan(displayArgs, [cleanHost(first), cleanHost(second)]))
  {
    BuildArgsExample();
    var scan := CleanScan(RawScan(displayArgs, [first, second]), cleanHost);
    assert scan.hosts == [cleanHost(first), cleanHost(second)];
  }
}
