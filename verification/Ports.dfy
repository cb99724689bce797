/** Port mappings: the three parsers (API, config file, proxy poller) and the printer. */
module Ports {
  import opened Text

  datatype Protocol = Tcp | Udp

  /** hostPort 0 means that the mapping names no host port. */
  datatype PortSpec = PortSpec(hostPort: nat, containerPort: nat, protocol: Protocol)

  const MAX_PORT := 65535

  predicate ValidPort(n: int) { 1 <= n <= MAX_PORT }

  predicate Bound(p: PortSpec) { ValidPort(p.hostPort) && ValidPort(p.containerPort) }

  /** The "(host port, protocol)" pair behind hostProtocolKey. */
  function HostKey(p: PortSpec): (nat, Protocol) { (p.hostPort, p.protocol) }

  /** The "(container port, protocol)" pair behind containerKey. */
  function ContainerKey(p: PortSpec): (nat, Protocol) { (p.containerPort, p.protocol) }

  /** portSpec.binding */
  function Binding(p: PortSpec): string {
    Itoa(p.hostPort) + ":" + Itoa(p.containerPort) + (if p.protocol.Tcp? then "" else "/udp")
  }

  function ParsePortNumber(s: string): Option<nat> {
    match Atoi(TrimSpace(s))
    case Some(n) => if ValidPort(n) then Some(n) else None
    case None => None
  }

  function ParseProtocol(s: string): Option<Protocol> {
    var p := ToLower(TrimSpace(s));
    if p == "tcp" then Some(Tcp) else if p == "udp" then Some(Udp) else None
  }

  /** parsePortSpec of the API (api/internal/api/handler.go). */
  function ParseApi(text: string): (r: Option<PortSpec>)
    ensures r.Some? ==> ValidPort(r.value.containerPort) && (r.value.hostPort == 0 || Bound(r.value))
  {
    var raw := TrimSpace(text);
    if raw == "" then None else
    var (main, rest, hasProtocol) := Cut(raw, '/');
    var protocol := if hasProtocol then ParseProtocol(rest) else Some(Tcp);
    var parts := Split(main, ':');
    if protocol.None? || |parts| > 2 then None else
    var container := ParsePortNumber(TrimSpace(parts[|parts| - 1]));
    if container.None? then None
    else if |parts| == 1 then Some(PortSpec(0, container.value, protocol.value))
    else
      match ParsePortNumber(TrimSpace(parts[0]))
      case Some(host) => Some(PortSpec(host, container.value, protocol.value))
      case None => None
  }

  /** parsePortSpec of the config file (api/internal/configv1/config.go). */
  function ParseConfig(text: string): Option<PortSpec> {
    var raw := TrimSpace(text);
    if raw == "" then None else
    var (main, rest, hasProtocol) := Cut(raw, '/');
    var protocol := if hasProtocol then ParseProtocol(rest) else Some(Tcp);
    if protocol.None? then None else
    var parts := Split(main, ':');
    if |parts| > 2 then None else
    match ParsePortNumber(parts[|parts| - 1])
    case None => None
    case Some(container) =>
      if |parts| == 1 then Some(PortSpec(0, container, protocol.value))
      else
        match ParsePortNumber(parts[0])
        case Some(host) => Some(PortSpec(host, container, protocol.value))
        case None => None
  }

  /** parseBinding of the poller (proxy/internal/poller/poller.go); a leading address is dropped. */
  function ParsePoller(raw: string): (r: Option<PortSpec>)
    ensures r.Some? ==> Bound(r.value)
  {
    var (main, rest, hasProtocol) := Cut(raw, '/');
    var protocol := if hasProtocol then ParseProtocol(rest) else Some(Tcp);
    if protocol.None? then None else
    var parts := Split(main, ':');
    if |parts| != 2 && |parts| != 3 then None else
    match (ParsePortNumber(parts[|parts| - 2]), ParsePortNumber(parts[|parts| - 1]))
    case (Some(host), Some(container)) => Some(PortSpec(host, container, protocol.value))
    case _ => None
  }

  /** The API and the config file accept the same strings with the same meaning. */
  lemma ParsersAgree(text: string)
    ensures ParseApi(text) == ParseConfig(text)
  {
    hide TrimSpace, Trimmed, Cut, Split, ParseProtocol, Atoi;
    var (main, rest, hasProtocol) := Cut(TrimSpace(text), '/');
    var parts := Split(main, ':');
    assert TrimSpace(TrimSpace(parts[|parts| - 1])) == TrimSpace(parts[|parts| - 1]);
    assert TrimSpace(TrimSpace(parts[0])) == TrimSpace(parts[0]);
  }

  lemma BindingShape(p: PortSpec)
    requires Bound(p)
    ensures Trimmed(Binding(p)) && Binding(p) != ""
    ensures Cut(Binding(p), '/') ==
            (Itoa(p.hostPort) + ":" + Itoa(p.containerPort), if p.protocol.Tcp? then "" else "udp", !p.protocol.Tcp?)
  {
    AtoiItoa(p.hostPort);
    AtoiItoa(p.containerPort);
    var main := Itoa(p.hostPort) + ":" + Itoa(p.containerPort);
    assert main[0] == Itoa(p.hostPort)[0];
    assert main[|main| - 1] == Itoa(p.containerPort)[|Itoa(p.containerPort)| - 1];
    if p.protocol.Tcp? {
      assert Binding(p) == main;
      CutNone(main, '/');
    } else {
      assert Binding(p) == main + ['/'] + "udp";
      CutAfter(main, '/', "udp");
    }
  }

  lemma BindingParts(p: PortSpec)
    requires Bound(p)
    ensures Split(Itoa(p.hostPort) + ":" + Itoa(p.containerPort), ':') == [Itoa(p.hostPort), Itoa(p.containerPort)]
    ensures ParsePortNumber(Itoa(p.hostPort)) == Some(p.hostPort)
    ensures ParsePortNumber(Itoa(p.containerPort)) == Some(p.containerPort)
    ensures TrimSpace(Itoa(p.hostPort)) == Itoa(p.hostPort)
    ensures TrimSpace(Itoa(p.containerPort)) == Itoa(p.containerPort)
  {
    AtoiItoa(p.hostPort);
    AtoiItoa(p.containerPort);
    SplitConcat(Itoa(p.hostPort), ':', Itoa(p.containerPort));
    SplitPlain(Itoa(p.hostPort), ':');
    SplitPlain(Itoa(p.containerPort), ':');
  }

  lemma UdpParses()
    ensures ParseProtocol("udp") == Some(Udp)
  {
    assert Trimmed("udp");
    assert ToLower("udp") == "udp";
  }

  /** Printing a bound mapping and parsing it back is the identity for all three parsers. */
  lemma PrintParse(p: PortSpec)
    requires Bound(p)
    ensures ParseApi(Binding(p)) == Some(p)
    ensures ParseConfig(Binding(p)) == Some(p)
    ensures ParsePoller(Binding(p)) == Some(p)
  {
    hide TrimSpace, Trimmed, Cut, Split, ParseProtocol, ParsePortNumber, ParseConfig, Binding, Itoa;
    BindingShape(p);
    BindingParts(p);
    UdpParses();
    ParsersAgree(Binding(p));
  }

  /** Different mappings have different printed forms. */
  lemma BindingInjective(p: PortSpec, q: PortSpec)
    requires Bound(p) && Bound(q) && Binding(p) == Binding(q)
    ensures p == q
  {
    PrintParse(p);
    PrintParse(q);
  }

  // ---------------------------------------------------------------- proxy upstream

  function Upstream(hostPort: nat): string { "localhost:" + Itoa(hostPort) }

  /** upstreamFromPorts with a proxy port: the first TCP mapping of that container port. */
  function ProxyUpstream(ports: seq<string>, proxyPort: int): Option<nat> {
    if ports == [] then None
    else
      var p := ParsePoller(ports[0]);
      if p.Some? && p.value.protocol.Tcp? && p.value.containerPort == proxyPort then Some(p.value.hostPort)
      else ProxyUpstream(ports[1..], proxyPort)
  }

  predicate WebPort(n: nat) { n == 80 || n == 443 || n == 8080 || n == 3000 || n == 8000 }

  /** upstreamFromPorts without a proxy port: the first web port, else the first TCP mapping. */
  function DefaultUpstream(ports: seq<string>, fallback: Option<nat>): Option<nat>
    decreases |ports|
  {
    if ports == [] then fallback
    else
      var p := ParsePoller(ports[0]);
      if p.None? || p.value.protocol.Udp? then DefaultUpstream(ports[1..], fallback)
      else if WebPort(p.value.containerPort) then Some(p.value.hostPort)
      else DefaultUpstream(ports[1..], if fallback.None? then Some(p.value.hostPort) else fallback)
  }

  /** upstreamFromPorts; "" when nothing is usable. */
  function UpstreamFromPorts(ports: seq<string>, proxyPort: int): string {
    match (if proxyPort > 0 then ProxyUpstream(ports, proxyPort) else DefaultUpstream(ports, None))
    case Some(host) => Upstream(host)
    case None => ""
  }

  predicate TcpAt(ports: seq<string>, i: int) {
    0 <= i < |ports| && ParsePoller(ports[i]).Some? && ParsePoller(ports[i]).value.protocol.Tcp?
  }

  /** A TCP mapping of one of the usual web ports. */
  predicate WebAt(ports: seq<string>, i: int) {
    TcpAt(ports, i) && ParsePoller(ports[i]).value.containerPort in {80, 443, 3000, 8000, 8080}
  }

  predicate ProxyAt(ports: seq<string>, i: int, proxyPort: int) {
    TcpAt(ports, i) && ParsePoller(ports[i]).value.containerPort == proxyPort
  }

  lemma ShiftedTcp(ports: seq<string>, i: int)
    requires ports != [] && i > 0
    ensures TcpAt(ports, i) == TcpAt(ports[1..], i - 1) && WebAt(ports, i) == WebAt(ports[1..], i - 1)
    ensures TcpAt(ports, i) ==> ParsePoller(ports[i]) == ParsePoller(ports[1..][i - 1])
  {
    hide ParsePoller;
  }

  /** The mapping that is chosen without a proxy port, if there is no earlier choice to fall back on. */
  lemma {:induction false} DefaultPicks(ports: seq<string>, fallback: Option<nat>) returns (i: int)
    ensures if exists k :: WebAt(ports, k) then
              WebAt(ports, i) && (forall j :: 0 <= j < i ==> !WebAt(ports, j)) &&
              DefaultUpstream(ports, fallback) == Some(ParsePoller(ports[i]).value.hostPort)
            else if fallback.Some? then DefaultUpstream(ports, fallback) == fallback
            else if exists k :: TcpAt(ports, k) then
              TcpAt(ports, i) && (forall j :: 0 <= j < i ==> !TcpAt(ports, j)) &&
              DefaultUpstream(ports, fallback) == Some(ParsePoller(ports[i]).value.hostPort)
            else DefaultUpstream(ports, fallback).None?
    decreases |ports|
  {
    hide ParsePoller;
    i := 0;
    if ports != [] && !WebAt(ports, 0) {
      var p := ParsePoller(ports[0]);
      var kept := if p.Some? && p.value.protocol.Tcp? && fallback.None? then Some(p.value.hostPort) else fallback;
      var j := DefaultPicks(ports[1..], kept);
      forall k | k > 0
        ensures TcpAt(ports, k) == TcpAt(ports[1..], k - 1) && WebAt(ports, k) == WebAt(ports[1..], k - 1)
      {
        ShiftedTcp(ports, k);
      }
      if kept == fallback || exists k :: WebAt(ports[1..], k) { i := j + 1; }
    }
  }

  lemma {:induction false} ProxyPicks(ports: seq<string>, proxyPort: int) returns (i: int)
    ensures if exists k :: ProxyAt(ports, k, proxyPort) then
              ProxyAt(ports, i, proxyPort) && (forall j :: 0 <= j < i ==> !ProxyAt(ports, j, proxyPort)) &&
              ProxyUpstream(ports, proxyPort) == Some(ParsePoller(ports[i]).value.hostPort)
            else ProxyUpstream(ports, proxyPort).None?
  {
    hide ParsePoller;
    i := 0;
    if ports != [] && !ProxyAt(ports, 0, proxyPort) {
      i := ProxyPicks(ports[1..], proxyPort);
      forall k | k > 0 ensures ProxyAt(ports, k, proxyPort) == ProxyAt(ports[1..], k - 1, proxyPort) {
        ShiftedTcp(ports, k);
      }
      i := i + 1;
    }
  }

  /** The mapping chosen for a proxy port: the first TCP mapping of that container port. Without a
      proxy port it is the first TCP mapping of a web port, otherwise the first TCP mapping. */
  predicate Chosen(ports: seq<string>, proxyPort: int, i: int) {
    if proxyPort > 0 then ProxyAt(ports, i, proxyPort) && forall j :: 0 <= j < i ==> !ProxyAt(ports, j, proxyPort)
    else if exists k :: 0 <= k < |ports| && WebAt(ports, k)
    then WebAt(ports, i) && forall j :: 0 <= j < i ==> !WebAt(ports, j)
    else TcpAt(ports, i) && forall j :: 0 <= j < i ==> !TcpAt(ports, j)
  }

  /** The upstream is the host port of the chosen mapping, and empty exactly when none can be chosen. */
  lemma UpstreamExactly(ports: seq<string>, proxyPort: int) returns (i: int)
    ensures UpstreamFromPorts(ports, proxyPort) == "" <==> forall k :: !Chosen(ports, proxyPort, k)
    ensures UpstreamFromPorts(ports, proxyPort) != "" ==>
              Chosen(ports, proxyPort, i) &&
              UpstreamFromPorts(ports, proxyPort) == "localhost:" + Itoa(ParsePoller(ports[i]).value.hostPort)
  {
    hide ParsePoller, Itoa;
    if proxyPort > 0 {
      i := ProxyPicks(ports, proxyPort);
    } else {
      i := DefaultPicks(ports, None);
    }
    var host := if proxyPort > 0 then ProxyUpstream(ports, proxyPort) else DefaultUpstream(ports, None);
    assert host.Some? ==> |Upstream(host.value)| >= 10;
    assert host.Some? <==> Chosen(ports, proxyPort, i);
  }

  /** validateProxyPortSelection */
  predicate ProxyPortAccepted(domain: string, proxyPort: int, ports: seq<string>) {
    if NormalizeDomain(domain) == "" then proxyPort == 0
    else proxyPort > 0 && exists i :: 0 <= i < |ports| && ServesProxyPort(ports[i], proxyPort)
  }

  predicate ServesProxyPort(port: string, proxyPort: int) {
    var p := ParseApi(port);
    p.Some? && p.value.containerPort == proxyPort && p.value.protocol.Tcp?
  }

  /** The check as the loop the source runs. */
  method ValidateProxyPortSelection(domain: string, proxyPort: int, ports: seq<string>) returns (ok: bool)
    ensures ok <==> ProxyPortAccepted(domain, proxyPort, ports)
  {
    hide NormalizeDomain, ServesProxyPort;
    if NormalizeDomain(domain) == "" { return proxyPort == 0; }
    if proxyPort <= 0 { return false; }
    for i := 0 to |ports|
      invariant forall j :: 0 <= j < i ==> !ServesProxyPort(ports[j], proxyPort)
    {
      if ServesProxyPort(ports[i], proxyPort) { return true; }
    }
    return false;
  }

  /** Ports as the API stores them: printed bound mappings. */
  predicate Printed(ports: seq<string>, specs: seq<PortSpec>) {
    |ports| == |specs| && forall i :: 0 <= i < |specs| ==> Bound(specs[i]) && ports[i] == Binding(specs[i])
  }

  lemma {:induction false} PrintedServe(port: string, spec: PortSpec, proxyPort: int)
    requires Bound(spec) && port == Binding(spec)
    ensures ServesProxyPort(port, proxyPort) <==> spec.containerPort == proxyPort && spec.protocol.Tcp?
    ensures ParsePoller(port) == Some(spec)
  {
    PrintParse(spec);
  }

  /** An accepted deployment with a domain is routed to one of its own TCP host ports. */
  lemma {:induction false} AcceptedIsRoutable(ports: seq<string>, specs: seq<PortSpec>, proxyPort: int) returns (i: nat)
    requires Printed(ports, specs)
    requires exists k :: 0 <= k < |ports| && ServesProxyPort(ports[k], proxyPort)
    ensures i < |specs| && specs[i].protocol.Tcp? && specs[i].containerPort == proxyPort
    ensures ProxyUpstream(ports, proxyPort) == Some(specs[i].hostPort)
  {
    hide ServesProxyPort, ParsePoller, Binding;
    PrintedServe(ports[0], specs[0], proxyPort);
    if specs[0].protocol.Tcp? && specs[0].containerPort == proxyPort {
      i := 0;
    } else {
      var k :| 0 <= k < |ports| && ServesProxyPort(ports[k], proxyPort);
      assert ports[1..][k - 1] == ports[k];
      var j := AcceptedIsRoutable(ports[1..], specs[1..], proxyPort);
      i := j + 1;
    }
  }
}
