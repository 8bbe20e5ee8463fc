# nmap scan orchestration — Dafny model

This project models the pure logic of `scan.go` in the Go nmap wrapper.
That file runs nmap, turns its XML report into a `Scan`, and rescans the
hosts of an existing `Scan`. The model has four parts:

- **Argument vector** (`ArgBuilder`, `Strconv`). `RunScan` passes nmap
  the following, in order:
  - `-oX -`, so the XML report goes to standard output;
  - the caller's options, verbatim;
  - `-p` and the port list, but only when the port list is non-empty;
  - the target hosts.

  The port list writes each port as `strconv.Itoa` would and puts a comma
  after every port. It keeps the ports' order and any duplicates, and it
  always ends with a comma. `BuildArgs` is the pure function for this.
  `JoinPorts` is the `+=` loop of the Go code, and it is proved equal to
  `PortList`. A decoder, `SplitArgs`, reads hosts, ports and options back
  from the vector, given how many options and hosts it carries. Without
  those counts the vector is ambiguous: scan.go:37-41 puts nothing between
  the options and the targets, so a host that starts with `-` reaches nmap
  as an option, and an option pair `-p`, `1,` cannot be told from port 1.
- **Normalisation** (`Normalizer`). `cleanScan` keeps the report's argument
  string. It cleans each raw host in report order.
- **Rescan** (`Rescanner`). `Scan.Rescan` and `Scan.RescanWithOptions`
  rescan the hosts one at a time, in order. They stop at the first host that
  fails and return its error. Earlier results are dropped and later hosts are
  never visited. On success the result is a new `Scan` with the rescanned
  hosts and an empty argument string.
- **Run pipeline** (`Runner`). `RunScan` is a chain of stages: lookup,
  pipes, start, reads, wait, parse and clean. The first stage that fails ends
  the run with no scan. A failed wait reports the exit error, standard error
  and standard output, separated by newlines.

Some collaborators are defined outside `scan.go`: the `Host`, `rawHost`
and `rawScan` records, `rawHost.cleanHost`, `Host.Rescan`,
`Host.RescanWithOptions` and `parseXML`. The model takes the two host record
types as type parameters. Its `RawScan` keeps only the two fields that
scan.go:18-19 reads, `DisplayArgs` and `Hosts`. It takes the four functions
as function-valued parameters. The operating system calls become given
outcomes. `lookPath` is what the lookup of `nmap` returned.
`exec(path, args)` is the record of what each process stage returned for
that command line. Go `error` values are represented by their text.

Two behaviours of the code are worth stating plainly:

- `Rescan` and `RescanWithOptions` leave the new scan's argument string
  empty (`new(Scan)`, scan.go:99 and scan.go:113), even when options were
  given. The model does the same.
- scan.go has no error kinds of its own. Each stage's Go error is returned
  unchanged, except after a failed wait, where the exit error, standard
  error and standard output are joined into one text (scan.go:81-82). The
  model carries those texts.

## Model

| member | source | states |
|---|---|---|
| Strconv.IntToString | scan.go:34 | The port text is non-empty decimal. It starts with `-` exactly for negative ports, has no leading zeros and never contains a comma. |
| Strconv.IntToStringRoundTrip | scan.go:34 | Decoding a port's text always gives the port back. |
| Strconv.IntToStringInjective | scan.go:34 | Two different ports never render to the same text. |
| ArgBuilder.PortList | scan.go:31-36 | The port list is empty exactly when there are no ports. Otherwise it ends with a comma, so a trailing comma is always present. |
| ArgBuilder.PortListSnoc | scan.go:33-35 | Each `+=` step appends the next port's decimal text and a comma. |
| ArgBuilder.JoinPorts | scan.go:31-36 | The accumulation loop computes exactly the port list: every port's text plus a comma, in order, duplicates kept. |
| ArgBuilder.PortListRoundTrip | scan.go:33-35 | The port list can be read back into exactly the port sequence, including its order and duplicates. |
| ArgBuilder.BuildArgs | scan.go:29-41 | The vector starts with `-oX`, `-`. Next come the options verbatim. `-p` and the port list follow if and only if ports were given, and the hosts close the vector in order. Its length is 2 + options + (2 if ports) + hosts. |
| ArgBuilder.BuildArgsRoundTrip | scan.go:29-41 | Given the counts of options and hosts, hosts, ports and options can all be read back from the vector. |
| ArgBuilder.BuildArgsInjective | scan.go:29-41 | With the same counts of options and hosts, different inputs never give the same nmap command line. |
| ArgBuilder.OptionsAndTargetsShareTheVector | scan.go:37-41 | A host `-sV` gives the same command line as an option `-sV`, and port 1 the same as options `-p`, `1,`: the vector alone does not tell options, ports and targets apart. |
| ArgBuilder.BuildArgsExample | scan.go:29-41 | Hosts 10.0.0.1 and 10.0.0.2, ports 22 and 80, and option `-sV` give `-oX - -sV -p 22,80, 10.0.0.1 10.0.0.2`. |
| Normalizer.CleanHosts | scan.go:19-21 | The append loop yields one host per raw host: element i is the cleaned raw host i. |
| Normalizer.CleanScan | scan.go:17-24 | `cleanScan` keeps `DisplayArgs`, keeps the number of hosts, and cleans host i into position i. |
| Normalizer.CleanHostsAppend | scan.go:19-21 | Cleaning a concatenation of host lists gives the concatenation of the cleaned lists, so order is kept across any split. |
| Rescanner.RescanHosts | scan.go:100-106 | The fold succeeds exactly when every host's rescan succeeds. Then it has one result per host, and element i is host i's rescan. |
| Rescanner.RescanStopsAtFirstFailure | scan.go:100-104 | When host k is the first to fail, the result is exactly host k's error, whatever hosts come after it. |
| Rescanner.RescanAll | scan.go:99-108 | The per-host rescan is called on a prefix of the hosts, in order. On failure the last host called is the first one that failed, and its error is returned. No later host is called and no scan is returned. On success every host is called and the new scan has an empty `DisplayArgs`. |
| Rescanner.Rescan | scan.go:98-109 | Success comes exactly when every host's `Host.Rescan` succeeds. Then the new scan has the same number of hosts, host i is host i's rescan, and `DisplayArgs` is `""`. Otherwise the error is the first failing host's. |
| Rescanner.RescanWithOptions | scan.go:112-123 | Each host's `Host.RescanWithOptions` receives `opts` unchanged. Otherwise this behaves like `Rescan`: same success condition, same order and length, empty `DisplayArgs`, and the first failure's error. |
| Runner.RunScan | scan.go:44-94 | A lookup failure is returned as-is. A scan is returned exactly when the process for `BuildArgs(...)` drains, exits cleanly and its output parses, and that scan is the cleaned parsed report. A failed wait gives the exit error, standard error and standard output joined by newlines, and a parse failure gives the parser's error. |
| Runner.LaunchFailureReportedAsIs | scan.go:52-76 | A failed pipe setup, start or stream read ends the run with no scan. The error returned is that of the first `Fail` in the stage outcomes taken in the code's order (stderr pipe, stdout pipe, start, stdout read, stderr read). |
| Runner.OnlyBuiltArgsMatter | scan.go:44-49 | nmap only ever runs with the vector `BuildArgs` produces. Any two process behaviours that agree on that one command line give the same result. |
| Runner.ParseOnlyAfterSuccessfulWait | scan.go:78-92 | If lookup or any process stage fails, the run fails and the parser's behaviour cannot affect the result: parsing happens only after a successful wait. |
| Runner.TwoHostScenario | scan.go:27-94 | For the two-host example, nmap receives the expected command line. A clean exit whose report lists two hosts gives a scan with those two cleaned hosts, in report order. |

## Left out

- OS process plumbing is given as outcomes rather than modelled. This covers `exec.LookPath`, `exec.Command`, `StderrPipe`, `StdoutPipe`, `Start`, `ioutil.ReadAll` and `Wait` (scan.go:44-83). It is operating-system I/O.
- Stream draining is not modelled. The code reads standard output to the end before it reads standard error, which can deadlock on a full pipe. That is a concurrency property, and a sequential model cannot express it.
- The `fmt.Println` logging at scan.go:80 and scan.go:88 is left out. It is a side effect with no effect on results.
- The bodies of `parseXML`, `rawHost.cleanHost`, `Host.Rescan` and `Host.RescanWithOptions` are not part of this model. Each is an arbitrary total function parameter; the assumptions this carries for the per-host rescans are listed below.
- Rescanner.Rescan: the per-host rescan is treated as a deterministic function of the host value, so equal hosts in one scan get equal outcomes. In Go each call (scan.go:101) runs nmap again over the network, and two equal entries of `s.Hosts` may get different results.
- Rescanner.Rescan: the per-host rescan is a function to a host or an error, so it can never return `(nil, nil)`. In Go that case panics at `*host` (scan.go:105), and the model cannot express it.
- Rescanner.RescanWithOptions: the per-host rescan is likewise treated as a deterministic function of the host value and `opts`, so equal hosts get equal outcomes, although each call (scan.go:115) runs nmap again.
- Rescanner.RescanWithOptions: the per-host call receives `opts` as an immutable sequence. In Go every iteration shares one backing array (scan.go:115), so a `Host.RescanWithOptions` that wrote into it would hand later hosts changed options; the model assumes it does not. It also cannot express the `(nil, nil)` panic at scan.go:119.
- Report bytes are modelled as strings. The code converts `[]byte` with `string(...)` only to build the wait-failure text, and byte-level content plays no role in the logic modelled here.
- Strconv.IntToString: ports are unbounded integers rather than Go's `int`, which is 32 or 64 bits wide depending on the platform. Every value in either range renders the same way, so only the range is wider.
