/** The nmap argument vector that `RunScan` assembles (scan.go:29-41).

    The vector is: the XML-to-standard-output request `-oX -`, the caller's
    options verbatim, then `-p` and the port list when the port list is not
    empty, then the target hosts. The port list writes every port in decimal
    followed by a comma, in the order given, duplicates included, so it always
    ends with a comma.
 */
module ArgBuilder {
  import opened Wrappers
  import opened Strconv

  /** Every port rendered by `strconv.Itoa` and followed by `,`, in order. */
  function PortList(ports: seq<int>): (list: string)
    decreases |ports|
    ensures list == "" <==> |ports| == 0
    ensures list != "" ==> list[|list| - 1] == ','
  {
    if |ports| == 0 then ""
    else IntToString(ports[0]) + "," + PortList(ports[1..])
  }

  /** Appending one port to the list appends its text and a comma. */
  lemma {:induction false} PortListSnoc(ports: seq<int>, port: int)
    ensures PortList(ports + [port]) == PortList(ports) + IntToString(port) + ","
    decreases |ports|
  {
    if |ports| == 0 {
      assert ports + [port] == [port];
      assert [port][1..] == [];
    } else {
      var longer := ports + [port];
      assert longer[0] == ports[0];
      assert longer[1..] == ports[1..] + [port];
      var head := IntToString(ports[0]);
      var tail := PortList(ports[1..]);
      PortListSnoc(ports[1..], port);
      calc {
        PortList(longer);
        head + "," + PortList(ports[1..] + [port]);
        head + "," + (tail + IntToString(port) + ",");
        (head + "," + tail) + IntToString(port) + ",";
      }
    }
  }

  /** The accumulation loop of scan.go:31-36, one `+=` per port. */
  method JoinPorts(ports: seq<int>) returns (portList: string)
    ensures portList == PortList(ports)
  {
    portList := "";
    if |ports| != 0 {
      var i := 0;
      while i < |ports|
        invariant 0 <= i <= |ports|
        invariant portList == PortList(ports[..i])
      {
        assert ports[..i + 1] == ports[..i] + [ports[i]];
        PortListSnoc(ports[..i], ports[i]);
        portList := portList + IntToString(ports[i]) + ",";
        i := i + 1;
      }
      assert ports[..i] == ports;
    }
  }

  /** The argument vector handed to nmap for `hosts`, `ports` and `opts`. */
  function BuildArgs(hosts: seq<string>, ports: seq<int>, opts: seq<string>): (args: seq<string>)
    ensures |args| == 2 + |opts| + (if |ports| > 0 then 2 else 0) + |hosts|
    ensures args[0] == "-oX" && args[1] == "-"
    ensures args[2..2 + |opts|] == opts
    ensures |ports| > 0 ==> args[2 + |opts|] == "-p" && args[3 + |opts|] == PortList(ports)
    ensures args[|args| - |hosts|..] == hosts
  {
    var portList := PortList(ports);
    ["-oX", "-"] + opts + (if portList != "" then ["-p", portList] else []) + hosts
  }

  /** The three inputs of `BuildArgs`. */
  datatype ArgParts = ArgParts(hosts: seq<string>, ports: seq<int>, opts: seq<string>)

  /** Position of the first `c` in `s`, or `|s|` when there is none. */
  function IndexOf(s: string, c: char): (i: nat)
    decreases |s|
    ensures i <= |s|
    ensures i < |s| ==> s[i] == c
    ensures forall j | 0 <= j < i :: s[j] != c
  {
    if |s| == 0 then 0
    else if s[0] == c then 0
    else 1 + IndexOf(s[1..], c)
  }

  /** Reads a port list written by `PortList`: decimal fields, each closed by a comma. */
  function ParsePortList(s: string): (r: Option<seq<int>>)
    decreases |s|
  {
    if |s| == 0 then Some([])
    else
      var i := IndexOf(s, ',');
      if i == |s| then None
      else
        match ParseDecimal(s[..i])
        case None => None
        case Some(port) =>
          match ParsePortList(s[i + 1..])
          case None => None
          case Some(rest) => Some([port] + rest)
  }

  /** Recovers hosts, ports and options from an argument vector, given how
      many options and hosts it carries; `None` when the vector does not have
      the shape `BuildArgs` produces. */
  function SplitArgs(args: seq<string>, optCount: nat, hostCount: nat): (r: Option<ArgParts>)
    ensures r.Some? ==> |r.value.opts| == optCount && |r.value.hosts| == hostCount
  {
    if |args| < 2 + optCount + hostCount || args[0] != "-oX" || args[1] != "-" then None
    else
      var opts := args[2..2 + optCount];
      var middle := args[2 + optCount..|args| - hostCount];
      var hosts := args[|args| - hostCount..];
      if |middle| == 0 then Some(ArgParts(hosts, [], opts))
      else if |middle| == 2 && middle[0] == "-p" then
        match ParsePortList(middle[1])
        case Some(ports) => if |ports| > 0 then Some(ArgParts(hosts, ports, opts)) else None
        case None => None
      else None
  }

  /** Reading a field that holds no comma, then the comma, then more fields. */
  lemma ParsePortListCons(field: string, rest: string, port: int, ports: seq<int>)
    requires ',' !in field
    requires ParseDecimal(field) == Some(port)
    requires ParsePortList(rest) == Some(ports)
    ensures ParsePortList(field + "," + rest) == Some([port] + ports)
  {
    var s := field + "," + rest;
    assert s[|field|] == ',';
    assert forall j | 0 <= j < |field| :: s[j] == field[j];
    assert IndexOf(s, ',') == |field|;
    assert s[..|field|] == field;
    assert s[|field| + 1..] == rest;
  }

  /** Reading back a port list gives exactly the ports it was built from. */
  lemma {:induction false} PortListRoundTrip(ports: seq<int>)
    ensures ParsePortList(PortList(ports)) == Some(ports)
    decreases |ports|
  {
    if |ports| > 0 {
      IntToStringRoundTrip(ports[0]);
      PortListRoundTrip(ports[1..]);
      ParsePortListCons(IntToString(ports[0]), PortList(ports[1..]), ports[0], ports[1..]);
      assert [ports[0]] + ports[1..] == ports;
    }
  }

  /** `BuildArgs` loses nothing: its inputs can be read back from its output. */
  lemma BuildArgsRoundTrip(hosts: seq<string>, ports: seq<int>, opts: seq<string>)
    ensures SplitArgs(BuildArgs(hosts, ports, opts), |opts|, |hosts|) == Some(ArgParts(hosts, ports, opts))
  {
    var args := BuildArgs(hosts, ports, opts);
    var middle := args[2 + |opts|..|args| - |hosts|];
    if |ports| > 0 {
      assert middle == ["-p", PortList(ports)];
      PortListRoundTrip(ports);
    } else {
      assert |middle| == 0;
    }
  }

  /** Two calls build the same vector only from the same inputs, once the
      number of options and hosts is fixed. */
  lemma BuildArgsInjective(h1: seq<string>, p1: seq<int>, o1: seq<string>,
                           h2: seq<string>, p2: seq<int>, o2: seq<string>)
    requires |o1| == |o2| && |h1| == |h2|
    requires BuildArgs(h1, p1, o1) == BuildArgs(h2, p2, o2)
    ensures h1 == h2 && p1 == p2 && o1 == o2
  {
    BuildArgsRoundTrip(h1, p1, o1);
    BuildArgsRoundTrip(h2, p2, o2);
  }

  /** The two-host example: `-sV`, ports 22 and 80, hosts 10.0.0.1 and 10.0.0.2. */
  lemma BuildArgsExample()
    ensures BuildArgs(["10.0.0.1", "10.0.0.2"], [22, 80], ["-sV"])
         == ["-oX", "-", "-sV", "-p", "22,80,", "10.0.0.1", "10.0.0.2"]
  {
    assert IntToString(22) == "22";
    assert IntToString(80) == "80";
    assert [22, 80][1..] == [80];
    assert [80][1..] == [];
    assert PortList([22, 80]) == "22,80,";
  }

  /** Nothing separates options from targets: a host that starts with `-`
      yields the same command line as an option of that text, and an option
      pair `-p`, list yields the same command line as that port list. */
  lemma OptionsAndTargetsShareTheVector()
    ensures BuildArgs(["-sV"], [], []) == BuildArgs([], [], ["-sV"])
    ensures BuildArgs([], [1], []) == BuildArgs([], [], ["-p", "1,"])
  {
    assert IntToString(1) == "1";
    assert [1][1..] == [];
    assert PortList([1]) == "1,";
  }
}
