/** Container lifecycle (orchestrator/internal/docker/docker.go): start, tear-down and the
    start-then-stop replacement, against an engine whose calls fail in any pattern. */
module Docker {
  import opened Text
  import opened Ordering
  import opened Engine
  import Store

  datatype Launched = Started(ports: seq<string>) | Refused(error: string)

  /** What ListManagedContainers reports; exit is None for a running container and for one whose
      inspection failed. */
  datatype Listed = Listed(id: string, name: string, deployment: string, running: bool, exit: Option<ExitDetails>)

  /** Every error text names Docker; that of a lost daemon also says so. */
  function Unavailable(text: string): (r: string)
    ensures "docker" <= r
  {
    "docker daemon unreachable: " + text
  }

  function Problem(what: string): (r: string)
    ensures "docker" <= r
  {
    "docker: " + what
  }

  function Failure(what: string, e: CallError): (r: string)
    ensures "docker" <= r
  {
    if e.kind.ConnectionFailed? then Unavailable(e.text) else Problem(what + ": " + e.text)
  }

  /** An error of a helper, passed on with a prefix. */
  function Wrapped(what: string, e: CallError): (r: string)
    ensures "docker" <= r
  {
    Problem(what + ": " + (if e.kind.ConnectionFailed? then Unavailable(e.text) else e.text))
  }

  predicate Reports(l: Listed, containers: map<string, Container>) {
    l.id in containers && l.name == containers[l.id].name && l.deployment == containers[l.id].deployment &&
    l.running == containers[l.id].running && (l.exit.Some? ==> !l.running && l.exit.value == containers[l.id].exit)
  }

  /** The listing names every container once, in any order. */
  ghost predicate Lists(listing: seq<Listed>, containers: map<string, Container>) {
    && (forall i, j :: 0 <= i < j < |listing| ==> listing[i].id != listing[j].id)
    && (forall i :: 0 <= i < |listing| ==> Reports(listing[i], containers))
    && (forall id :: id in containers ==> exists i :: 0 <= i < |listing| && listing[i].id == id)
  }

  // ---------------------------------------------------------------- ports

  /** nat.Port.Port and nat.Port.Proto */
  function PortOf(key: string): string { Cut(key, '/').0 }

  function ProtoOf(key: string): string { if Cut(key, '/').1 == "" then "tcp" else Cut(key, '/').1 }

  /** The first host port that is not blank. */
  function FirstHost(hosts: seq<string>): (r: Option<string>)
    ensures r.Some? ==> r.value in hosts && r.value != ""
    ensures r.None? <==> forall h :: h in hosts ==> h == ""
  {
    if hosts == [] then None
    else if hosts[0] != "" then Some(hosts[0])
    else assert hosts == [hosts[0]] + hosts[1..]; FirstHost(hosts[1..])
  }

  predicate Holds(network: PortMap, key: string)
    requires key in network
  {
    FirstHost(network[key]).Some?
  }

  function HeldKey(network: PortMap, key: string): string
    requires key in network && Holds(network, key)
  {
    FirstHost(network[key]).value + "/" + ProtoOf(key)
  }

  /** The "hostPort/protocol" keys that a container holds according to its inspection. */
  ghost function Held(network: PortMap): set<string> {
    set key | key in network && Holds(network, key) :: HeldKey(network, key)
  }

  predicate AsksFor(bindings: PortMap, key: string)
    requires key in bindings
  {
    bindings[key] != [] && bindings[key][0] != "" && bindings[key][0] != "0"
  }

  function AskedKey(bindings: PortMap, key: string): string
    requires key in bindings && AsksFor(bindings, key)
  {
    bindings[key][0] + "/" + ProtoOf(key)
  }

  /** The "hostPort/protocol" keys that the parsed port specs ask for by number. */
  ghost function Explicit(bindings: PortMap): set<string> {
    set key | key in bindings && AsksFor(bindings, key) :: AskedKey(bindings, key)
  }

  method HeldKeys(network: PortMap) returns (keys: set<string>)
    ensures keys == Held(network)
  {
    var rest := network.Keys;
    keys := {};
    while rest != {}
      invariant rest <= network.Keys && keys <= Held(network)
      invariant forall key :: key in network && key !in rest && Holds(network, key) ==> HeldKey(network, key) in keys
    {
      var key :| key in rest;
      if Holds(network, key) { keys := keys + {HeldKey(network, key)}; }
      rest := rest - {key};
    }
  }

  method ExplicitKeys(bindings: PortMap) returns (keys: set<string>)
    ensures keys == Explicit(bindings)
  {
    var rest := bindings.Keys;
    keys := {};
    while rest != {}
      invariant rest <= bindings.Keys && keys <= Explicit(bindings)
      invariant forall key :: key in bindings && key !in rest && AsksFor(bindings, key) ==>
                  AskedKey(bindings, key) in keys
    {
      var key :| key in rest;
      if AsksFor(bindings, key) { keys := keys + {AskedKey(bindings, key)}; }
      rest := rest - {key};
    }
  }

  /** Equal keys are equal host ports and equal protocols. */
  lemma KeysArePairs(host: string, proto: string, host': string, proto': string)
    requires '/' !in host && '/' !in host'
    ensures host + "/" + proto == host' + "/" + proto' <==> host == host' && proto == proto'
  {
    CutAfter(host, '/', proto);
    CutAfter(host', '/', proto');
    assert host + "/" + proto == host + ['/'] + proto && host' + "/" + proto' == host' + ['/'] + proto';
  }

  /** The normalisation in front of nat.ParsePortSpecs: a spec without host port asks for any. */
  function WithHostPart(ports: seq<string>): seq<string> {
    seq(|ports|, i requires 0 <= i < |ports| =>
      if ports[i] != "" && ':' !in ports[i] then "0:" + ports[i] else ports[i])
  }

  /** resolvedPorts: per container port, in key order, the first host port that is not blank. */
  function PortLines(keys: seq<string>, network: PortMap): seq<string>
    requires forall k :: k in keys ==> k in network
  {
    if keys == [] then []
    else
      var rest := PortLines(keys[1..], network);
      match FirstHost(network[keys[0]])
      case Some(host) => [host + ":" + PortOf(keys[0])] + rest
      case None => rest
  }

  ghost function Resolved(network: PortMap): seq<string> { PortLines(KeysInOrder(network.Keys), network) }

  /** Can the proxy route to this binding? With proxyPort 0 the first one with a host port will do. */
  predicate Usable(binding: string, proxyPort: int) {
    var (host, container, ok) := Cut(binding, ':');
    ok && host != "" && (proxyPort > 0 ==> container != "" && container == Itoa(proxyPort))
  }

  function UpstreamOf(binding: string): string { "localhost:" + Cut(binding, ':').0 }

  /** upstreamFromRuntimePorts: the first usable binding, or "" exactly when there is none. */
  ghost predicate IsUpstream(ports: seq<string>, proxyPort: int, upstream: string) {
    if exists k :: 0 <= k < |ports| && Usable(ports[k], proxyPort) then
      exists k :: 0 <= k < |ports| && Usable(ports[k], proxyPort) && upstream == UpstreamOf(ports[k]) &&
                  forall j :: 0 <= j < k ==> !Usable(ports[j], proxyPort)
    else upstream == ""
  }

  method UpstreamFromRuntimePorts(ports: seq<string>, proxyPort: int) returns (upstream: string)
    ensures IsUpstream(ports, proxyPort, upstream)
  {
    for i := 0 to |ports|
      invariant forall j :: 0 <= j < i ==> !Usable(ports[j], proxyPort)
    {
      if Usable(ports[i], proxyPort) { return UpstreamOf(ports[i]); }
    }
    return "";
  }

  // ---------------------------------------------------------------- what a call leaves behind

  predicate Ours(containers: map<string, Container>, id: string, dep: Store.Deployment) {
    id in containers ==> containers[id].deployment == dep.id
  }

  /** After Start: nothing but one new container of the deployment, which a success leaves in place.
      fine says that every reply was a success: then the launch succeeds. */
  ghost predicate StartOutcome(before: map<string, Container>, dep: Store.Deployment, after: map<string, Container>,
                               made: Option<string>, fine: bool, r: Launched)
  {
    && (match made
        case None => after == before && r.Refused?
        case Some(id) => id !in before && SameExcept(before, after, {id}) && Ours(after, id, dep))
    && (r.Started? ==> made.value in after && after[made.value].name == dep.name)
    && (fine ==> r.Started?)
  }

  /** After StartAndReplace: nothing but the old container and one new one may have changed; off the
      stop-first path, success leaves the new one running and failure leaves the old one intact. If
      every reply was a success, the old one is gone and the new one has the deployment's name. */
  ghost predicate ReplaceOutcome(before: map<string, Container>, dep: Store.Deployment, oldId: string,
                                 after: map<string, Container>, made: Option<string>, stopFirst: bool, fine: bool,
                                 r: Launched)
  {
    && (match made
        case None => SameExcept(before, after, {oldId}) && r.Refused?
        case Some(id) => id !in before && id != oldId && SameExcept(before, after, {oldId, id}) && Ours(after, id, dep))
    && OnlyWeaker(before, after, oldId)
    && (r.Started? ==> made.value in after)
    && (r.Started? && !stopFirst ==> after[made.value].running)
    && (r.Started? && stopFirst ==> oldId !in after)
    && (r.Refused? && !stopFirst ==> SameAt(before, after, oldId))
    && (fine ==> r.Started? && oldId !in after && after[made.value].name == dep.name)
  }

  // ---------------------------------------------------------------- replies and call sequences

  /** The ports parse and every reply from call `from` on is fine. */
  ghost predicate AllFine(log: seq<Moment>, from: nat, asked: Option<PortMap>) {
    asked.Some? && forall k :: from <= k < |log| ==> Fine(log[k])
  }

  /** Every inspected container but the old one offers a port that the proxy can route to. */
  ghost predicate Reachable(log: seq<Moment>, from: nat, dep: Store.Deployment, oldId: string) {
    NormalizeDomain(dep.domain) == "" ||
    forall k :: from <= k < |log| ==> OffersPort(log[k].call, dep.proxyPort, oldId)
  }

  ghost predicate OffersPort(call: Call, proxyPort: int, oldId: string) {
    call.Inspect? && call.id != oldId && call.network.Some? ==> !IsUpstream(Resolved(call.network.value), proxyPort, "")
  }

  /** The calls of a successful Start, from `from` to the end of the log. */
  ghost predicate StartedCalls(log: seq<Moment>, from: nat, dep: Store.Deployment, id: string, ports: seq<string>) {
    && |log| == from + 5 && log[from].call == Ping && log[from + 1].call == Pull(dep.image)
    && log[from + 2].call == Create(dep.name) && log[from + 3].call == Start(id)
    && Answered(log[from + 4].call, id, ports)
  }

  /** The runtime ports come from the inspection of the new container. */
  ghost predicate Answered(call: Call, id: string, ports: seq<string>) {
    call.Inspect? && call.id == id && call.network.Some? && ports == Resolved(call.network.value)
  }

  ghost predicate LaunchCalls(log: seq<Moment>, from: nat, dep: Store.Deployment, id: string) {
    && |log| >= from + 3 && log[from].call == Pull(dep.image) && log[from + 1].call == Create(dep.name + "-next")
    && log[from + 2].call == Start(id)
  }

  /** The calls of a successful start half, from `from` on. */
  ghost predicate NextCalls(log: seq<Moment>, from: nat, dep: Store.Deployment, id: string, ports: seq<string>) {
    && |log| >= from + 5 && LaunchCalls(log, from, dep, id) && log[from + 3].call == ListRunning(id, true)
    && Answered(log[from + 4].call, id, ports)
  }

  /** The calls that end a replacement, from n to the end of the log: stop the old container, remove
      it if that worked, and rename the new one. */
  ghost predicate TornDown(log: seq<Moment>, n: nat, dep: Store.Deployment, oldId: string, id: string) {
    && n + 2 <= |log| <= n + 3 && log[n].call == Stop(oldId) && log[|log| - 1].call == Rename(id, dep.name)
    && (|log| == n + 3 ==> log[n + 1].call == Remove(oldId)) && (log[n].ok ==> |log| == n + 3)
  }

  // ---------------------------------------------------------------- the replacement protocol

  /** The handover is complete before call k: at some earlier call a container other than the old
      one was seen running, it was inspected, and the proxy acknowledged a route to one of its ports
      (no route is needed for a blank domain). */
  ghost predicate HandedOver(log: seq<Moment>, from: nat, k: int, dep: Store.Deployment, oldId: string) {
    exists i :: from <= i < k <= |log| && HandoverAt(log, i, k, dep, oldId)
  }

  ghost predicate HandoverAt(log: seq<Moment>, i: nat, k: int, dep: Store.Deployment, oldId: string)
    requires i < k <= |log|
  {
    && log[i].call.ListRunning? && log[i].call.seen && log[i].call.id != oldId
    && i + 1 < k && log[i + 1].call.Inspect? && log[i + 1].call.id == log[i].call.id && log[i + 1].call.network.Some?
    && (NormalizeDomain(dep.domain) != "" ==>
          i + 2 < k && log[i + 2].call.Route? && log[i + 2].call.acked &&
          log[i + 2].call.domain == NormalizeDomain(dep.domain) && log[i + 2].call.upstream != "" &&
          IsUpstream(Resolved(log[i + 1].call.network.value), dep.proxyPort, log[i + 2].call.upstream))
  }

  /** Some call from `from` on reported that the old container holds a port that is asked for. */
  ghost predicate PortContested(log: seq<Moment>, from: nat, oldId: string, asked: Option<PortMap>) {
    exists k :: from <= k < |log| && ContestedAt(log[k].call, oldId, asked)
  }

  ghost predicate ContestedAt(call: Call, oldId: string, asked: Option<PortMap>) {
    call.Inspect? && call.id == oldId && call.network.Some? && asked.Some? &&
    Explicit(asked.value) * Held(call.network.value) != {}
  }

  /** From call `from` on, the old container is as it was and no call was aimed at it. */
  ghost predicate Untouched(log: seq<Moment>, from: nat, oldId: string, before: map<string, Container>) {
    forall k :: from <= k < |log| ==> !Touches(log[k].call, oldId) && SameAt(before, log[k].containers, oldId)
  }

  class Docker {
    const client: Client
    /** nat.ParsePortSpecs, a library function. */
    const parseSpecs: seq<string> -> Option<PortMap>

    constructor (client: Client, parseSpecs: seq<string> -> Option<PortMap>)
      ensures this.client == client && this.parseSpecs == parseSpecs
    {
      this.client, this.parseSpecs := client, parseSpecs;
    }

    /** parsePorts */
    function Asked(ports: seq<string>): Option<PortMap> {
      if ports == [] then Some(map[]) else parseSpecs(WithHostPart(ports))
    }

    method ListManagedContainers() returns (r: Reply<seq<Listed>>)
      requires client.Valid()
      modifies client
      ensures client.Valid() && client.containers == old(client.containers) && client.issued == old(client.issued)
      ensures r.Ok? ==> Lists(r.value, client.containers)
    {
      var ids := client.AllIds();
      if ids.Err? { return Err(ids.error); }
      var listing: seq<Listed> := [];
      for i := 0 to |ids.value|
        invariant client.Valid() && client.containers == old(client.containers) && client.issued == old(client.issued)
        invariant |listing| == i
        invariant forall k :: 0 <= k < i ==> listing[k].id == ids.value[k] && Reports(listing[k], client.containers)
      {
        var id := ids.value[i];
        assert id in ids.value;
        var c := client.containers[id];
        var exit := None;
        if !c.running { exit := client.ExitOf(id); }
        listing := listing + [Listed(id, c.name, c.deployment, c.running, exit)];
      }
      forall id | id in client.containers ensures exists i :: 0 <= i < |listing| && listing[i].id == id {
        var i :| 0 <= i < |ids.value| && ids.value[i] == id;
        assert listing[i].id == id;
      }
      return Ok(listing);
    }

    method ShouldStopBeforeStart(oldId: string, ports: seq<string>) returns (r: Reply<bool>)
      requires client.Valid()
      modifies client
      ensures client.Valid() && client.containers == old(client.containers) && client.issued == old(client.issued)
      ensures old(client.log) <= client.log
      ensures Untouched(client.log, |old(client.log)|, oldId, client.containers)
      ensures r == Ok(true) <==> PortContested(client.log, |old(client.log)|, oldId, Asked(ports))
      ensures r.Err? ==> !AllFine(client.log, |old(client.log)|, Asked(ports))
    {
      hide Held, Explicit;
      if ports == [] { EmptyAsksNothing(); return Ok(false); }
      if Asked(ports).None? { return Err(CallError(Other, "invalid port specification")); }
      var desired := ExplicitKeys(Asked(ports).value);
      if desired == {} { return Ok(false); }
      var inspected := client.ContainerInspect(oldId);
      assert Fine(client.log[|old(client.log)|]) ==> inspected.Ok?;
      if inspected.Err? { return Err(inspected.error); }
      if inspected.value.None? { return Ok(false); }
      var current := HeldKeys(inspected.value.value);
      assert ContestedAt(client.log[|old(client.log)|].call, oldId, Asked(ports)) <==> desired * current != {};
      return Ok(desired * current != {});
    }

    /** Stop, then remove; a container that is already stopped or gone is no error. */
    method StopAndRemove(id: string) returns (failure: Option<CallError>)
      requires client.Valid()
      modifies client
      ensures client.Valid() && client.issued == old(client.issued) && old(client.log) <= client.log
      ensures |old(client.log)| + 1 <= |client.log| <= |old(client.log)| + 2
      ensures client.log[|old(client.log)|].call == Stop(id)
      ensures |client.log| == |old(client.log)| + 2 ==> client.log[|old(client.log)| + 1].call == Remove(id)
      ensures client.log[|old(client.log)|].ok ==> |client.log| == |old(client.log)| + 2
      ensures failure.Some? ==> !client.log[|client.log| - 1].ok
      ensures SameExcept(old(client.containers), client.containers, {id})
      ensures OnlyWeaker(old(client.containers), client.containers, id)
      ensures failure.None? ==> id !in client.containers
    {
      failure := client.ContainerStop(id);
      if failure.Some? && !failure.value.kind.NotModified? && !failure.value.kind.NotFound? { return; }
      failure := client.ContainerRemove(id);
      if failure.Some? && failure.value.kind.NotFound? { return None; }
    }

    /** resolvedPorts */
    method ResolvedPorts(id: string) returns (r: Reply<seq<string>>)
      requires client.Valid()
      modifies client
      ensures client.Valid() && client.containers == old(client.containers) && client.issued == old(client.issued)
      ensures |client.log| == |old(client.log)| + 1 && old(client.log) <= client.log
      ensures var last := client.log[|old(client.log)|];
              last.call.Inspect? && last.call.id == id && last.containers == client.containers &&
              (r.Ok? ==> Answered(last.call, id, r.value)) && (r.Err? ==> !Fine(last))
    {
      var inspected := client.ContainerInspect(id);
      if inspected.Err? { return Err(inspected.error); }
      if inspected.value.None? { return Err(CallError(Other, "network settings not available")); }
      var network := inspected.value.value;
      var keys := SortedKeys(network.Keys);
      SortedKeysUnique(keys, KeysInOrder(network.Keys), network.Keys);
      var lines: seq<string> := [];
      for i := 0 to |keys|
        invariant PortLines(keys, network) == lines + PortLines(keys[i..], network)
      {
        assert keys[i..][1..] == keys[i + 1..];
        var host := FirstHost(network[keys[i]]);
        if host.Some? { lines := lines + [host.value + ":" + PortOf(keys[i])]; }
      }
      return Ok(lines);
    }

    /** swapProxyRoute: true when the proxy acknowledged, or when there is no domain to route. */
    method SwapProxyRoute(domain: string, proxyPort: int, ports: seq<string>) returns (done: bool)
      requires client.Valid()
      modifies client
      ensures client.Valid() && client.containers == old(client.containers) && client.issued == old(client.issued)
      ensures old(client.log) <= client.log
      ensures forall k :: |old(client.log)| <= k < |client.log| ==>
                client.log[k].call.Route? && client.log[k].containers == client.containers
      ensures done && NormalizeDomain(domain) != "" ==>
                |client.log| == |old(client.log)| + 1 &&
                Acknowledged(client.log[|old(client.log)|].call, domain, proxyPort, ports)
      ensures done && NormalizeDomain(domain) == "" ==> client.log == old(client.log)
      ensures !done ==> NormalizeDomain(domain) != ""
      ensures !done ==> IsUpstream(ports, proxyPort, "") ||
                        (|client.log| > |old(client.log)| && !Fine(client.log[|old(client.log)|]))
    {
      if NormalizeDomain(domain) == "" { return true; }
      var upstream := UpstreamFromRuntimePorts(ports, proxyPort);
      if upstream == "" { return false; }
      done := client.PostRoute(NormalizeDomain(domain), upstream);
    }

    /** The error paths that give up a container that was just created. */
    method Discard(id: string)
      requires client.Valid()
      modifies client
      ensures client.Valid() && client.issued == old(client.issued) && old(client.log) <= client.log
      ensures SameExcept(old(client.containers), client.containers, {id})
      ensures OnlyWeaker(old(client.containers), client.containers, id)
      ensures forall k :: |old(client.log)| <= k < |client.log| ==>
                client.log[k].call in {Stop(id), Remove(id)} &&
                SameExcept(old(client.containers), client.log[k].containers, {id})
    {
      var _ := client.ContainerStop(id);
      var _ := client.ContainerRemove(id);
    }

    /** A success is exactly the calls ping, pull, create, start and inspect; a refusal has a cause. */
    method Start(dep: Store.Deployment) returns (r: Launched, ghost made: Option<string>)
      requires client.Valid()
      modifies client
      ensures client.Valid() && client.issued >= old(client.issued) && old(client.log) <= client.log
      ensures StartOutcome(old(client.containers), dep, client.containers, made,
                           AllFine(client.log, |old(client.log)|, Asked(dep.ports)), r)
      ensures made.Some? ==> made.value !in old(client.issued)
      ensures r.Started? ==> StartedCalls(client.log, |old(client.log)|, dep, made.value, r.ports)
      ensures r.Refused? ==> "docker" <= r.error
    {
      hide Failure, Wrapped, Unavailable, Problem, Resolved;
      made := None;
      ghost var from := |client.log|;
      var failure := client.Send(Ping);
      assert Fine(client.log[from]) <==> failure.None?;
      if failure.Some? { return Refused(Unavailable(failure.value.text)), made; }
      failure := client.Send(Pull(dep.image));
      assert Fine(client.log[from + 1]) <==> failure.None?;
      if failure.Some? { return Refused(Failure("pull image " + dep.image, failure.value)), made; }
      if Asked(dep.ports).None? { return Refused(Problem("parse ports")), made; }
      var created;
      created, made := client.ContainerCreate(dep.name, dep.id);
      assert Fine(client.log[from + 2]) <==> created.Ok?;
      if created.Err? { return Refused(Failure("create container " + dep.name, created.error)), made; }
      var id := created.value;
      failure := client.ContainerStart(id);
      assert Fine(client.log[from + 3]) <==> failure.None?;
      if failure.Some? { return Refused(Failure("start container " + id, failure.value)), made; }
      var ports := ResolvedPorts(id);
      if ports.Err? {
        Discard(id);
        assert !Fine(client.log[from + 4]);
        return Refused(Wrapped("resolve runtime ports for " + id, ports.error)), made;
      }
      return Started(ports.value), made;
    }

    /** Pull, create and start a container under the temporary name. */
    method Launch(dep: Store.Deployment, oldId: string)
      returns (failed: Option<string>, nextId: string, ghost made: Option<string>)
      requires client.Valid() && oldId in client.issued
      modifies client
      ensures client.Valid() && client.issued >= old(client.issued) && old(client.log) <= client.log
      ensures Elsewhere(client.log, |old(client.log)|, oldId, old(client.containers))
      ensures made.None? ==> client.containers == old(client.containers) && failed.Some?
      ensures made.Some? ==> made.value !in old(client.issued) && Ours(client.containers, made.value, dep) &&
                             SameExcept(old(client.containers), client.containers, {made.value})
      ensures failed.None? ==>
                made == Some(nextId) && nextId in client.containers && |client.log| == |old(client.log)| + 3
      ensures failed.None? ==> LaunchCalls(client.log, |old(client.log)|, dep, nextId) && Asked(dep.ports).Some?
      ensures failed.Some? ==> "docker" <= failed.value && !AllFine(client.log, |old(client.log)|, Asked(dep.ports))
    {
      hide Explicit, Held, Failure, Unavailable, Problem, WithHostPart;
      made, nextId := None, "";
      ghost var from := |client.log|;
      var failure := client.Send(Pull(dep.image));
      assert Fine(client.log[from]) <==> failure.None?;
      if failure.Some? { return Some(Failure("pull image " + dep.image, failure.value)), nextId, made; }
      if Asked(dep.ports).None? { return Some(Problem("parse ports")), nextId, made; }
      var created;
      created, made := client.ContainerCreate(dep.name + "-next", dep.id);
      assert Fine(client.log[from + 1]) <==> created.Ok?;
      if created.Err? {
        return Some(Failure("create container " + dep.name + "-next", created.error)), nextId, made;
      }
      nextId := created.value;
      failure := client.ContainerStart(nextId);
      assert Fine(client.log[from + 2]) <==> failure.None?;
      if failure.Some? {
        var _ := client.ContainerRemove(nextId);
        assert !Fine(client.log[from + 2]);
        return Some(Failure("start container " + nextId, failure.value)), nextId, made;
      }
      failed := None;
    }

    /** The start half of the start-then-stop path, up to the acknowledged swap. */
    method StartNext(dep: Store.Deployment, oldId: string)
      returns (r: Launched, nextId: string, ghost made: Option<string>)
      requires client.Valid() && oldId in client.issued
      modifies client
      ensures client.Valid() && client.issued >= old(client.issued) && old(client.log) <= client.log
      ensures Elsewhere(client.log, |old(client.log)|, oldId, old(client.containers))
      ensures made.None? ==> client.containers == old(client.containers) && r.Refused?
      ensures made.Some? ==> made.value !in old(client.issued) && Ours(client.containers, made.value, dep) &&
                             SameExcept(old(client.containers), client.containers, {made.value})
      ensures r.Started? ==> made == Some(nextId) && nextId in client.containers && client.containers[nextId].running &&
                             HandedOver(client.log, |old(client.log)|, |client.log|, dep, oldId)
      ensures r.Started? ==> NextCalls(client.log, |old(client.log)|, dep, nextId, r.ports)
      ensures r.Refused? ==> "docker" <= r.error
      ensures r.Refused? ==> !AllFine(client.log, |old(client.log)|, Asked(dep.ports)) ||
                             !Reachable(client.log, |old(client.log)|, dep, oldId)
    {
      hide HandedOver, Reachable, Resolved, Fine;
      ghost var from := |client.log|;
      var failed;
      failed, nextId, made := Launch(dep, oldId);
      if failed.Some? { return Refused(failed.value), nextId, made; }
      ghost var middle := client.log;
      r := Verify(dep, oldId, nextId);
      FineLater(client.log, from, |middle|, Asked(dep.ports));
      ReachableLater(client.log, from, |middle|, dep, oldId);
      if r.Started? { HandoverEarlier(client.log, from, |middle|, dep, oldId); }
    }

    /** From the started new container to the acknowledged swap. */
    method Verify(dep: Store.Deployment, ghost oldId: string, id: string) returns (r: Launched)
      requires client.Valid() && id != oldId && id in client.containers && client.containers[id].deployment == dep.id
      modifies client
      ensures client.Valid() && client.issued == old(client.issued) && old(client.log) <= client.log
      ensures Elsewhere(client.log, |old(client.log)|, oldId, old(client.containers))
      ensures SameExcept(old(client.containers), client.containers, {id}) && Ours(client.containers, id, dep)
      ensures r.Started? ==> id in client.containers && client.containers[id].running &&
                             HandedOver(client.log, |old(client.log)|, |client.log|, dep, oldId)
      ensures r.Started? ==>
                |client.log| >= |old(client.log)| + 2 && Answered(client.log[|old(client.log)| + 1].call, id, r.ports)
      ensures r.Started? ==> client.log[|old(client.log)|].call == ListRunning(id, true)
      ensures r.Refused? ==> "docker" <= r.error
      ensures r.Refused? ==> (exists k :: |old(client.log)| <= k < |client.log| && !Fine(client.log[k])) ||
                             !Reachable(client.log, |old(client.log)|, dep, oldId)
    {
      hide Resolved, IsUpstream, NormalizeDomain, HandedOver, Wrapped, Problem;
      ghost var from := |client.log|;
      var seen := client.RunningWithId(id);
      assert Fine(client.log[from]) <==> seen == Ok(true);
      if seen.Err? {
        Discard(id);
        assert !Fine(client.log[from]);
        return Refused(Problem("inspect new container " + id + ": " + seen.error.text));
      }
      if !seen.value {
        var _ := client.ContainerRemove(id);
        assert !Fine(client.log[from]);
        return Refused(Problem("new container " + id + " did not reach running state"));
      }
      var ports := ResolvedPorts(id);
      if ports.Err? {
        Discard(id);
        assert !Fine(client.log[from + 1]);
        return Refused(Wrapped("resolve runtime ports for " + id, ports.error));
      }
      var done := SwapProxyRoute(dep.domain, dep.proxyPort, ports.value);
      if !done {
        ghost var swapped := client.log;
        Discard(id);
        assert |swapped| > from + 2 ==> client.log[from + 2] == swapped[from + 2];
        assert OffersPort(client.log[from + 1].call, dep.proxyPort, oldId) ==>
                 !IsUpstream(ports.value, dep.proxyPort, "");
        return Refused(Problem("swap proxy route for " + dep.domain));
      }
      HandoverDone(client.log, from, dep, oldId);
      return Started(ports.value);
    }

    /** The stop-first path. */
    method StopThenStart(dep: Store.Deployment, oldId: string) returns (r: Launched, ghost made: Option<string>)
      requires client.Valid() && oldId in client.issued
      modifies client
      ensures client.Valid() && client.issued >= old(client.issued) && old(client.log) <= client.log
      ensures ReplaceOutcome(old(client.containers), dep, oldId, client.containers, made, true,
                             AllFine(client.log, |old(client.log)|, Asked(dep.ports)), r)
      ensures r.Started? ==> |client.log| >= |old(client.log)| + 5 &&
                             StartedCalls(client.log, |client.log| - 5, dep, made.value, r.ports)
      ensures r.Refused? ==> "docker" <= r.error
    {
      made := None;
      var failure := StopAndRemove(oldId);
      if failure.Some? {
        return Refused(Wrapped("stop old container " + oldId + " before replace", failure.value)), made;
      }
      r, made := Start(dep);
    }

    /** Tear down the old container and give the new one its name; failures are only logged. */
    method TearDown(dep: Store.Deployment, oldId: string, nextId: string)
      requires client.Valid() && oldId != nextId && nextId in client.containers
      modifies client
      ensures client.Valid() && client.issued == old(client.issued) && old(client.log) <= client.log
      ensures nextId in client.containers && TornDown(client.log, |old(client.log)|, dep, oldId, nextId)
      ensures (forall k :: |old(client.log)| <= k < |client.log| ==> client.log[k].ok) ==>
                oldId !in client.containers && client.containers[nextId].name == dep.name
      ensures SameExcept(old(client.containers), client.containers, {oldId, nextId})
      ensures OnlyWeaker(old(client.containers), client.containers, oldId)
      ensures client.containers[nextId].running == old(client.containers[nextId].running)
      ensures client.containers[nextId].deployment == old(client.containers[nextId].deployment)
    {
      var failure := StopAndRemove(oldId);
      assert SameAt(old(client.containers), client.containers, nextId);
      failure := client.ContainerRename(nextId, dep.name);
      assert SameExcept(old(client.containers), client.containers, {oldId, nextId});
    }

    /** The old container is touched only after the handover, unless it holds a port that the new
        one asks for by number; exactly then it is stopped first. A refusal on the start-then-stop
        path comes before the old container is touched at all, and every refusal has a cause. A
        success ends with the tear-down of the old container and the new one's name. */
    method StartAndReplace(dep: Store.Deployment, oldId: string)
      returns (r: Launched, ghost made: Option<string>, ghost stopFirst: bool, ghost fine: bool)
      requires client.Valid() && oldId in client.issued
      modifies client
      ensures client.Valid() && client.issued >= old(client.issued) && old(client.log) <= client.log
      ensures ReplaceOutcome(old(client.containers), dep, oldId, client.containers, made, stopFirst, fine, r)
      ensures fine <==> AllFine(client.log, |old(client.log)|, Asked(dep.ports)) &&
                        Reachable(client.log, |old(client.log)|, dep, oldId)
      ensures stopFirst <==> PortContested(client.log, |old(client.log)|, oldId, Asked(dep.ports))
      ensures !stopFirst && r.Refused? ==> Untouched(client.log, |old(client.log)|, oldId, old(client.containers))
      ensures !stopFirst ==> TouchedAfterHandover(client.log, |old(client.log)|, dep, oldId, old(client.containers))
      ensures !stopFirst && r.Started? ==> Replaced(client.log, |old(client.log)|, dep, oldId, made.value, r.ports)
      ensures stopFirst && r.Started? ==> |client.log| >= |old(client.log)| + 5 &&
                                          StartedCalls(client.log, |client.log| - 5, dep, made.value, r.ports)
      ensures r.Refused? ==> "docker" <= r.error
    {
      hide HandedOver, AllFine, Reachable, PortContested, Untouched, TouchedAfterHandover, Replaced, StartedCalls;
      ghost var from := |client.log|;
      r, made, stopFirst := Replace(dep, oldId);
      fine := AllFine(client.log, from, Asked(dep.ports)) && Reachable(client.log, from, dep, oldId);
    }

    method Replace(dep: Store.Deployment, oldId: string)
      returns (r: Launched, ghost made: Option<string>, ghost stopFirst: bool)
      requires client.Valid() && oldId in client.issued
      modifies client
      ensures client.Valid() && client.issued >= old(client.issued) && old(client.log) <= client.log
      ensures ReplaceOutcome(old(client.containers), dep, oldId, client.containers, made, stopFirst, false, r)
      ensures AllFine(client.log, |old(client.log)|, Asked(dep.ports)) &&
              Reachable(client.log, |old(client.log)|, dep, oldId) ==>
                r.Started? && oldId !in client.containers && client.containers[made.value].name == dep.name
      ensures stopFirst <==> PortContested(client.log, |old(client.log)|, oldId, Asked(dep.ports))
      ensures !stopFirst && r.Refused? ==> Untouched(client.log, |old(client.log)|, oldId, old(client.containers))
      ensures !stopFirst ==> TouchedAfterHandover(client.log, |old(client.log)|, dep, oldId, old(client.containers))
      ensures !stopFirst && r.Started? ==> Replaced(client.log, |old(client.log)|, dep, oldId, made.value, r.ports)
      ensures stopFirst && r.Started? ==> |client.log| >= |old(client.log)| + 5 &&
                                          StartedCalls(client.log, |client.log| - 5, dep, made.value, r.ports)
      ensures r.Refused? ==> "docker" <= r.error
    {
      hide HandedOver, Explicit, Held, Reachable, StartedCalls, NextCalls, Replaced, TouchedAfterHandover;
      made, stopFirst := None, false;
      ghost var from := |client.log|;
      var failure := client.Send(Ping);
      assert Fine(client.log[from]) <==> failure.None?;
      if failure.Some? {
        QuietIsTouchedLater(client.log, from, dep, oldId, old(client.containers));
        return Refused(Unavailable(failure.value.text)), made, stopFirst;
      }
      var fallback := ShouldStopBeforeStart(oldId, dep.ports);
      FineLater(client.log, from, from + 1, Asked(dep.ports));
      if fallback.Err? {
        QuietIsTouchedLater(client.log, from, dep, oldId, old(client.containers));
        return Refused(Wrapped("compare port bindings", fallback.error)), made, stopFirst;
      }
      ghost var asked := client.log;
      if fallback.value {
        stopFirst := true;
        r, made := StopThenStart(dep, oldId);
        FineLater(client.log, from, |asked|, Asked(dep.ports));
        return;
      }
      r, made := StartThenStop(dep, oldId);
      FineLater(client.log, from, |asked|, Asked(dep.ports));
      ReachableLater(client.log, from, |asked|, dep, oldId);
      TouchedEarlier(client.log, from, |asked|, dep, oldId, old(client.containers));
      if r.Started? { ReplacedEarlier(client.log, from, |asked|, dep, oldId, made.value, r.ports); }
    }

    /** The start-then-stop path. */
    method StartThenStop(dep: Store.Deployment, oldId: string) returns (r: Launched, ghost made: Option<string>)
      requires client.Valid() && oldId in client.issued
      modifies client
      ensures client.Valid() && client.issued >= old(client.issued) && old(client.log) <= client.log
      ensures ReplaceOutcome(old(client.containers), dep, oldId, client.containers, made, false, false, r)
      ensures AllFine(client.log, |old(client.log)|, Asked(dep.ports)) &&
              Reachable(client.log, |old(client.log)|, dep, oldId) ==>
                r.Started? && oldId !in client.containers && client.containers[made.value].name == dep.name
      ensures !PortContested(client.log, |old(client.log)|, oldId, Asked(dep.ports))
      ensures r.Refused? ==> Untouched(client.log, |old(client.log)|, oldId, old(client.containers))
      ensures TouchedAfterHandover(client.log, |old(client.log)|, dep, oldId, old(client.containers))
      ensures r.Started? ==> Replaced(client.log, |old(client.log)|, dep, oldId, made.value, r.ports)
      ensures r.Refused? ==> "docker" <= r.error
    {
      hide HandedOver, Explicit, Held, Reachable, NextCalls, Replaced;
      ghost var from := |client.log|;
      var nextId;
      r, nextId, made := StartNext(dep, oldId);
      ElsewhereIsUntouched(client.log, from, oldId, old(client.containers), Asked(dep.ports));
      if r.Started? {
        ghost var before := client.log;
        TearDown(dep, oldId, nextId);
        HandoverLater(before, client.log, from, dep, oldId);
        ReplacedNow(before, client.log, from, from, dep, oldId, nextId, r.ports);
      }
    }
  }

  /** A log in which the old container stays untouched has nothing to hand over. */
  lemma QuietIsTouchedLater(log: seq<Moment>, from: nat, dep: Store.Deployment, oldId: string,
                            before: map<string, Container>)
    requires Untouched(log, from, oldId, before)
    ensures TouchedAfterHandover(log, from, dep, oldId, before)
  {
    hide HandedOver;
  }

  lemma TouchedEarlier(log: seq<Moment>, from: nat, mid: nat, dep: Store.Deployment, oldId: string,
                       before: map<string, Container>)
    requires from <= mid <= |log| && TouchedAfterHandover(log, mid, dep, oldId, before)
    requires forall k :: from <= k < mid ==> !Touches(log[k].call, oldId) && SameAt(before, log[k].containers, oldId)
    ensures TouchedAfterHandover(log, from, dep, oldId, before)
  {
    hide HandoverAt;
  }

  lemma ReplacedEarlier(log: seq<Moment>, from: nat, mid: nat, dep: Store.Deployment, oldId: string, id: string,
                        ports: seq<string>)
    requires from <= mid && Replaced(log, mid, dep, oldId, id, ports)
    ensures Replaced(log, from, dep, oldId, id, ports)
  {
    hide NextCalls, TornDown, HandoverAt;
    var m: nat, n: nat :| mid <= m < n && NextCalls(log, m, dep, id, ports) && HandedOver(log, mid, n, dep, oldId) &&
                          TornDown(log, n, dep, oldId, id);
    assert HandedOver(log, from, n, dep, oldId);
  }

  /** A replacement ran to its end: the start half from m on, then, after the handover, the tear-down. */
  ghost predicate Replaced(log: seq<Moment>, from: nat, dep: Store.Deployment, oldId: string, id: string,
                           ports: seq<string>)
  {
    exists m: nat, n: nat :: from <= m < n && NextCalls(log, m, dep, id, ports) &&
                             HandedOver(log, from, n, dep, oldId) && TornDown(log, n, dep, oldId, id)
  }

  lemma ReplacedNow(before: seq<Moment>, log: seq<Moment>, from: nat, m: nat, dep: Store.Deployment, oldId: string,
                    id: string, ports: seq<string>)
    requires before <= log && from <= m && NextCalls(before, m, dep, id, ports)
    requires HandedOver(log, from, |before|, dep, oldId) && TornDown(log, |before|, dep, oldId, id)
    ensures Replaced(log, from, dep, oldId, id, ports)
  {
    hide HandedOver, TornDown, Answered;
    assert NextCalls(log, m, dep, id, ports);
  }

  lemma FineLater(log: seq<Moment>, from: nat, mid: nat, asked: Option<PortMap>)
    requires from <= mid
    ensures AllFine(log, from, asked) ==> AllFine(log, mid, asked)
  {
  }

  lemma ReachableLater(log: seq<Moment>, from: nat, mid: nat, dep: Store.Deployment, oldId: string)
    requires from <= mid
    ensures Reachable(log, from, dep, oldId) ==> Reachable(log, mid, dep, oldId)
  {
    hide OffersPort;
  }

  lemma HandoverDone(log: seq<Moment>, from: nat, dep: Store.Deployment, oldId: string)
    requires from < |log| && HandoverAt(log, from, |log|, dep, oldId)
    ensures HandedOver(log, from, |log|, dep, oldId)
  {
    hide HandoverAt;
  }

  lemma HandoverEarlier(log: seq<Moment>, from: nat, mid: nat, dep: Store.Deployment, oldId: string)
    requires from <= mid && HandedOver(log, mid, |log|, dep, oldId)
    ensures HandedOver(log, from, |log|, dep, oldId)
  {
    hide HandoverAt;
  }

  lemma HandoverLater(before: seq<Moment>, log: seq<Moment>, from: nat, dep: Store.Deployment, oldId: string)
    requires before <= log && HandedOver(before, from, |before|, dep, oldId)
    ensures forall k :: |before| <= k <= |log| ==> HandedOver(log, from, k, dep, oldId)
  {
    hide Resolved, IsUpstream;
    var i :| from <= i < |before| && HandoverAt(before, i, |before|, dep, oldId);
    forall k | |before| <= k <= |log| ensures HandedOver(log, from, k, dep, oldId) {
      assert HandoverAt(log, i, k, dep, oldId);
    }
  }

  /** From call `from` on, neither a change nor a question concerned the old container. */
  ghost predicate Elsewhere(log: seq<Moment>, from: nat, oldId: string, before: map<string, Container>) {
    forall k :: from <= k < |log| ==> Apart(log[k], oldId, before)
  }

  ghost predicate Apart(m: Moment, oldId: string, before: map<string, Container>) {
    !Touches(m.call, oldId) && SameAt(before, m.containers, oldId) && (m.call.Inspect? ==> m.call.id != oldId)
  }

  lemma ElsewhereIsUntouched(log: seq<Moment>, from: nat, oldId: string, before: map<string, Container>,
                             asked: Option<PortMap>)
    requires Elsewhere(log, from, oldId, before)
    ensures Untouched(log, from, oldId, before) && !PortContested(log, from, oldId, asked)
  {
  }

  ghost predicate Acknowledged(call: Call, domain: string, proxyPort: int, ports: seq<string>) {
    call.Route? && call.acked && call.domain == NormalizeDomain(domain) && call.upstream != "" &&
    IsUpstream(ports, proxyPort, call.upstream)
  }

  /** Every call that touches the old container, and every moment at which it is not as before,
      comes after a complete handover. */
  ghost predicate TouchedAfterHandover(log: seq<Moment>, from: nat, dep: Store.Deployment, oldId: string,
                                       before: map<string, Container>)
  {
    forall k :: from <= k < |log| && (Touches(log[k].call, oldId) || !SameAt(before, log[k].containers, oldId)) ==>
      HandedOver(log, from, k, dep, oldId)
  }

  lemma EmptyAsksNothing()
    ensures Explicit(map[]) == {}
  {
  }
}
