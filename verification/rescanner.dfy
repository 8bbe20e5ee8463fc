/** `Scan.Rescan` and `Scan.RescanWithOptions` (scan.go:97-123).

    Both walk the hosts of a scan in order and rescan each one on its own,
    stopping at the first host whose rescan fails: that error is returned
    and the hosts rescanned so far are dropped. When every host succeeds the
    result is a new scan holding the rescanned hosts in the original order,
    with an empty argument string. The per-host rescans (`Host.Rescan`,
    `Host.RescanWithOptions`) live outside scan.go and are parameters here.
 */
module Rescanner {
  import opened Wrappers
  import opened Normalizer

  /** The reference fold: rescan the first host, then the rest; the first
      error wins. */
  function RescanHosts<H>(hosts: seq<H>, rescanHost: H -> Result<H>): (r: Result<seq<H>>)
    decreases |hosts|
    ensures r.Ok? <==> forall i | 0 <= i < |hosts| :: rescanHost(hosts[i]).Ok?
    ensures r.Ok? ==> |r.value| == |hosts|
    ensures r.Ok? ==> forall i | 0 <= i < |hosts| :: r.value[i] == rescanHost(hosts[i]).value
  {
    if |hosts| == 0 then Ok([])
    else
      match rescanHost(hosts[0])
      case Err(e) => Err(e)
      case Ok(host) =>
        match RescanHosts(hosts[1..], rescanHost)
        case Err(e) => Err(e)
        case Ok(rest) => Ok([host] + rest)
  }

  /** Fail-fast: once host `k` fails after hosts `0..k-1` succeeded, the
      result is exactly host `k`'s error, whatever the hosts after it are. */
  lemma {:induction false} RescanStopsAtFirstFailure<H>(done: seq<H>, failed: H, later: seq<H>, rescanHost: H -> Result<H>)
    requires forall i | 0 <= i < |done| :: rescanHost(done[i]).Ok?
    requires rescanHost(failed).Err?
    ensures RescanHosts(done + [failed] + later, rescanHost) == Err(rescanHost(failed).msg)
    decreases |done|
  {
    var hosts := done + [failed] + later;
    if |done| > 0 {
      assert hosts[0] == done[0];
      assert hosts[1..] == done[1..] + [failed] + later;
      RescanStopsAtFirstFailure(done[1..], failed, later, rescanHost);
    } else {
      assert hosts[0] == failed;
    }
  }

  /** The loop of scan.go:99-108 (and 113-122), with `rescanHost` standing for
      the per-host call. `visited` lists the hosts handed to `rescanHost`, in
      call order. */
  method RescanAll<H>(scan: Scan<H>, rescanHost: H -> Result<H>) returns (r: Result<Scan<H>>, visited: seq<H>)
    ensures |visited| <= |scan.hosts| && visited == scan.hosts[..|visited|]
    ensures r.Ok? ==> visited == scan.hosts
    ensures r.Err? ==> |visited| > 0 && rescanHost(visited[|visited| - 1]) == Err(r.msg)
    ensures r.Err? ==> forall i | 0 <= i < |visited| - 1 :: rescanHost(visited[i]).Ok?
    ensures r == match RescanHosts(scan.hosts, rescanHost)
                 case Ok(hosts) => Ok(Scan("", hosts))
                 case Err(e) => Err(e)
  {
    var newHosts: seq<H> := [];
    visited := [];
    var i := 0;
    while i < |scan.hosts|
      invariant 0 <= i <= |scan.hosts|
      invariant visited == scan.hosts[..i]
      invariant |newHosts| == i
      invariant forall j | 0 <= j < i :: rescanHost(scan.hosts[j]).Ok? && newHosts[j] == rescanHost(scan.hosts[j]).value
    {
      var host := scan.hosts[i];
      visited := visited + [host];
      var res := rescanHost(host);
      if res.Err? {
        assert scan.hosts == scan.hosts[..i] + [host] + scan.hosts[i + 1..];
        RescanStopsAtFirstFailure(scan.hosts[..i], host, scan.hosts[i + 1..], rescanHost);
        return Err(res.msg), visited;
      }
      newHosts := newHosts + [res.value];
      i := i + 1;
    }
    assert visited == scan.hosts;
    assert RescanHosts(scan.hosts, rescanHost).value == newHosts;
    r := Ok(Scan("", newHosts));
  }

  /** `Scan.Rescan`: every host rescanned with `Host.Rescan`. */
  method Rescan<H>(scan: Scan<H>, hostRescan: H -> Result<H>) returns (r: Result<Scan<H>>)
    ensures r.Ok? <==> forall i | 0 <= i < |scan.hosts| :: hostRescan(scan.hosts[i]).Ok?
    ensures r.Ok? ==> r.value.displayArgs == ""
    ensures r.Ok? ==> |r.value.hosts| == |scan.hosts|
    ensures r.Ok? ==> forall i | 0 <= i < |scan.hosts| :: r.value.hosts[i] == hostRescan(scan.hosts[i]).value
    ensures r.Err? ==> exists k | 0 <= k < |scan.hosts| ::
              hostRescan(scan.hosts[k]) == Err(r.msg) && forall i | 0 <= i < k :: hostRescan(scan.hosts[i]).Ok?
  {
    var visited;
    r, visited := RescanAll(scan, hostRescan);
    if r.Err? {
      var k := |visited| - 1;
      assert scan.hosts[k] == visited[k];
    }
  }

  /** `Scan.RescanWithOptions`: every host rescanned with
      `Host.RescanWithOptions`, each call receiving `opts` unchanged. */
  method RescanWithOptions<H>(scan: Scan<H>, opts: seq<string>, hostRescanWithOptions: (H, seq<string>) -> Result<H>)
    returns (r: Result<Scan<H>>)
    ensures r.Ok? <==> forall i | 0 <= i < |scan.hosts| :: hostRescanWithOptions(scan.hosts[i], opts).Ok?
    ensures r.Ok? ==> r.value.displayArgs == ""
    ensures r.Ok? ==> |r.value.hosts| == |scan.hosts|
    ensures r.Ok? ==> forall i | 0 <= i < |scan.hosts| :: r.value.hosts[i] == hostRescanWithOptions(scan.hosts[i], opts).value
    ensures r.Err? ==> exists k | 0 <= k < |scan.hosts| ::
              hostRescanWithOptions(scan.hosts[k], opts) == Err(r.msg)
              && forall i | 0 <= i < k :: hostRescanWithOptions(scan.hosts[i], opts).Ok?
  {
    var visited;
    r, visited := RescanAll(scan, h => hostRescanWithOptions(h, opts));
    if r.Err? {
      var k := |visited| - 1;
      assert scan.hosts[k] == visited[k];
    }
  }
}
