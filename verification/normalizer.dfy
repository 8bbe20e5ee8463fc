/** Scans and their normalisation (scan.go:11-24).

    A `RawScan` is what the XML parser produces; `cleanScan` turns it into a
    `Scan` by keeping the argument string and cleaning every host in turn.
    The host records and the per-host cleaning are defined outside scan.go,
    so the host types are parameters here (`R` raw, `H` clean) and
    `cleanHost` is any total function between them.
 */
module Normalizer {

  /** One completed scan: the argument string nmap reported and its hosts. */
  datatype Scan<H> = Scan(displayArgs: string, hosts: seq<H>)

  /** A scan as parsed from nmap's XML report, before cleaning. */
  datatype RawScan<R> = RawScan(displayArgs: string, hosts: seq<R>)

  /** The hosts appended one by one, in report order, each after cleaning. */
  function CleanHosts<R, H>(raw: seq<R>, cleanHost: R -> H): (hosts: seq<H>)
    decreases |raw|
    ensures |hosts| == |raw|
    ensures forall i | 0 <= i < |raw| :: hosts[i] == cleanHost(raw[i])
  {
    if |raw| == 0 then []
    else CleanHosts(raw[..|raw| - 1], cleanHost) + [cleanHost(raw[|raw| - 1])]
  }

  /** `rawScan.cleanScan`: the same argument string, one clean host per raw host. */
  function CleanScan<R, H>(raw: RawScan<R>, cleanHost: R -> H): (scan: Scan<H>)
    ensures scan.displayArgs == raw.displayArgs
    ensures |scan.hosts| == |raw.hosts|
    ensures forall i | 0 <= i < |raw.hosts| :: scan.hosts[i] == cleanHost(raw.hosts[i])
  {
    Scan(raw.displayArgs, CleanHosts(raw.hosts, cleanHost))
  }

  /** Cleaning a report whose hosts are split in two cleans each part on its own. */
  lemma CleanHostsAppend<R, H>(a: seq<R>, b: seq<R>, cleanHost: R -> H)
    ensures CleanHosts(a + b, cleanHost) == CleanHosts(a, cleanHost) + CleanHosts(b, cleanHost)
  {
  }
}
