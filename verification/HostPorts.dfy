/** The host-port allocator of the API (assignHostPorts in api/internal/api/handler.go). */
module HostPorts {
  import opened Text
  import opened Ports
  import opened Store

  const RANGE_MIN := 32768
  const RANGE_MAX := 60999

  type Key = (nat, Protocol)

  datatype AssignError = Malformed | HostPortConflict(hostPort: nat, protocol: Protocol) | NoHostPorts

  datatype Outcome<+T> = Assigned(value: T) | Rejected(error: AssignError)

  // ---------------------------------------------------------------- the pieces

  /** parsePortSpecs, continued after the mappings in `kept`: a repeated mapping is dropped. */
  function ParseSpecs(raw: seq<string>, kept: seq<PortSpec>): Option<seq<PortSpec>>
    decreases |raw|
  {
    if raw == [] then Some(kept)
    else
      match ParseApi(raw[0])
      case None => None
      case Some(p) => ParseSpecs(raw[1..], if p in kept then kept else kept + [p])
  }

  /** Host ports named by mappings that parse. */
  function KeysOf(ports: seq<string>): set<Key> {
    set i | 0 <= i < |ports| && ParseApi(ports[i]).Some? && ParseApi(ports[i]).value.hostPort > 0 ::
      HostKey(ParseApi(ports[i]).value)
  }

  /** usedHostPorts: the keys of every deployment but the skipped one. */
  function UsedKeys(all: seq<Deployment>, skip: string): set<Key> {
    set i, k | 0 <= i < |all| && all[i].id != skip && k in KeysOf(all[i].ports) :: k
  }

  /** existing: the host port now bound to each container port, the last mapping winning. */
  function Existing(ports: seq<string>): map<Key, nat> {
    if ports == [] then map[]
    else
      var before := Existing(ports[..|ports| - 1]);
      match ParseApi(ports[|ports| - 1])
      case Some(p) => if p.hostPort > 0 then before[ContainerKey(p) := p.hostPort] else before
      case None => before
  }

  /** allocateHostPort from `port` upwards. */
  function Allocate(used: set<Key>, protocol: Protocol, port: nat): (r: Option<nat>)
    requires port <= RANGE_MAX + 1
    ensures match r
            case Some(n) => port <= n <= RANGE_MAX && (n, protocol) !in used &&
                            forall m: nat :: port <= m < n ==> (m, protocol) in used
            case None => forall m: nat :: port <= m <= RANGE_MAX ==> (m, protocol) in used
    decreases RANGE_MAX + 1 - port
  {
    if port > RANGE_MAX then None
    else if (port, protocol) !in used then Some(port)
    else Allocate(used, protocol, port + 1)
  }

  /** The mapping given to one request. */
  function Choose(req: PortSpec, used: set<Key>, existing: map<Key, nat>): Outcome<PortSpec> {
    if req.hostPort > 0 then
      if HostKey(req) in used then Rejected(HostPortConflict(req.hostPort, req.protocol)) else Assigned(req)
    else if ContainerKey(req) in existing && (existing[ContainerKey(req)], req.protocol) !in used then
      Assigned(req.(hostPort := existing[ContainerKey(req)]))
    else
      match Allocate(used, req.protocol, RANGE_MIN)
      case Some(n) => Assigned(req.(hostPort := n))
      case None => Rejected(NoHostPorts)
  }

  function AssignAll(reqs: seq<PortSpec>, used: set<Key>, existing: map<Key, nat>): Outcome<seq<PortSpec>> {
    if reqs == [] then Assigned([])
    else
      match Choose(reqs[0], used, existing)
      case Rejected(e) => Rejected(e)
      case Assigned(p) =>
        match AssignAll(reqs[1..], used + {HostKey(p)}, existing)
        case Rejected(e) => Rejected(e)
        case Assigned(ps) => Assigned([p] + ps)
  }

  function PrintAll(ps: seq<PortSpec>): (r: seq<string>)
    ensures |r| == |ps| && forall i :: 0 <= i < |ps| ==> r[i] == Binding(ps[i])
  {
    seq(|ps|, i requires 0 <= i < |ps| => Binding(ps[i]))
  }

  /** assignHostPorts */
  function AssignHostPorts(all: seq<Deployment>, skip: string, current: seq<string>, requested: seq<string>)
    : Outcome<seq<string>>
  {
    if requested == [] then Assigned([])
    else
      match ParseSpecs(requested, [])
      case None => Rejected(Malformed)
      case Some(reqs) =>
        match AssignAll(reqs, UsedKeys(all, skip), Existing(current))
        case Rejected(e) => Rejected(e)
        case Assigned(ps) => Assigned(PrintAll(ps))
  }

  // ---------------------------------------------------------------- the loops of the source

  method RunParseSpecs(raw: seq<string>) returns (r: Option<seq<PortSpec>>)
    ensures r == ParseSpecs(raw, [])
  {
    hide ParseApi;
    var parsed: seq<PortSpec> := [];
    var seenContainer: set<PortSpec>, seenBinding: set<PortSpec> := {}, {};
    for i := 0 to |raw|
      invariant ParseSpecs(raw, []) == ParseSpecs(raw[i..], parsed)
      invariant forall p :: p in seenBinding <==> p in parsed && p.hostPort > 0
      invariant forall p :: p in seenContainer <==> p in parsed && p.hostPort == 0
    {
      assert raw[i..][0] == raw[i] && raw[i..][1..] == raw[i + 1..];
      var p := ParseApi(raw[i]);
      if p.None? { return None; }
      if p.value.hostPort > 0 {
        if p.value !in seenBinding {
          seenBinding, parsed := seenBinding + {p.value}, parsed + [p.value];
        }
      } else if p.value !in seenContainer {
        seenContainer, parsed := seenContainer + {p.value}, parsed + [p.value];
      }
    }
    assert raw[|raw|..] == [];
    return Some(parsed);
  }

  method RunUsedKeys(all: seq<Deployment>, skip: string) returns (used: set<Key>)
    ensures used == UsedKeys(all, skip)
  {
    hide ParseApi;
    used := {};
    for i := 0 to |all|
      invariant used == UsedKeys(all[..i], skip)
    {
      var keys: set<Key> := {};
      if all[i].id != skip {
        var ports := all[i].ports;
        for j := 0 to |ports|
          invariant keys == KeysOf(ports[..j])
        {
          var p := ParseApi(ports[j]);
          if p.Some? && p.value.hostPort > 0 { keys := keys + {HostKey(p.value)}; }
          KeysStep(ports, j);
        }
        assert ports[..|ports|] == ports;
        used := used + keys;
      }
      UsedStep(all, i, skip);
    }
    assert all[..|all|] == all;
  }

  lemma KeysStep(ports: seq<string>, j: int)
    requires 0 <= j < |ports|
    ensures KeysOf(ports[..j + 1]) == KeysOf(ports[..j]) +
            (var p := ParseApi(ports[j]); if p.Some? && p.value.hostPort > 0 then {HostKey(p.value)} else {})
  {
    hide ParseApi;
    var before, after := ports[..j], ports[..j + 1];
    forall k | k in KeysOf(after)
      ensures k in KeysOf(before) || (ParseApi(ports[j]).Some? && k == HostKey(ParseApi(ports[j]).value))
    {
      var i :| 0 <= i < |after| && ParseApi(after[i]).Some? && ParseApi(after[i]).value.hostPort > 0 &&
               HostKey(ParseApi(after[i]).value) == k;
      if i < j { assert before[i] == after[i]; }
    }
    forall k | k in KeysOf(before) ensures k in KeysOf(after) {
      var i :| 0 <= i < |before| && ParseApi(before[i]).Some? && ParseApi(before[i]).value.hostPort > 0 &&
               HostKey(ParseApi(before[i]).value) == k;
      assert after[i] == before[i];
    }
    assert after[j] == ports[j];
  }

  lemma UsedStep(all: seq<Deployment>, i: int, skip: string)
    requires 0 <= i < |all|
    ensures UsedKeys(all[..i + 1], skip) ==
            UsedKeys(all[..i], skip) + (if all[i].id != skip then KeysOf(all[i].ports) else {})
  {
    hide KeysOf;
    var before, after := all[..i], all[..i + 1];
    forall k | k in UsedKeys(before, skip) ensures k in UsedKeys(after, skip) {
      var n :| 0 <= n < |before| && before[n].id != skip && k in KeysOf(before[n].ports);
      assert after[n] == before[n];
    }
    forall k | k in UsedKeys(after, skip)
      ensures k in UsedKeys(before, skip) || (all[i].id != skip && k in KeysOf(all[i].ports))
    {
      var n :| 0 <= n < |after| && after[n].id != skip && k in KeysOf(after[n].ports);
      if n < i { assert before[n] == after[n]; }
    }
    assert after[i] == all[i];
  }

  method RunExisting(ports: seq<string>) returns (existing: map<Key, nat>)
    ensures existing == Existing(ports)
  {
    hide ParseApi;
    existing := map[];
    for i := 0 to |ports|
      invariant existing == Existing(ports[..i])
    {
      assert ports[..i + 1][..i] == ports[..i];
      var p := ParseApi(ports[i]);
      if p.Some? && p.value.hostPort > 0 { existing := existing[ContainerKey(p.value) := p.value.hostPort]; }
    }
    assert ports[..|ports|] == ports;
  }

  method RunAllocate(used: set<Key>, protocol: Protocol) returns (r: Option<nat>)
    ensures r == Allocate(used, protocol, RANGE_MIN)
  {
    for port := RANGE_MIN to RANGE_MAX + 1
      invariant Allocate(used, protocol, RANGE_MIN) == Allocate(used, protocol, port)
    {
      if (port, protocol) !in used { return Some(port); }
    }
    return None;
  }

  method RunAssignHostPorts(all: seq<Deployment>, skip: string, current: seq<string>, requested: seq<string>)
    returns (r: Outcome<seq<string>>)
    ensures r == AssignHostPorts(all, skip, current, requested)
  {
    hide ParseSpecs, UsedKeys, Existing, Binding, Allocate;
    if requested == [] { return Assigned([]); }
    var parsed := RunParseSpecs(requested);
    if parsed.None? { return Rejected(Malformed); }
    var reqs := parsed.value;
    var used := RunUsedKeys(all, skip);
    var existing := RunExisting(current);
    ghost var used0 := used;
    var result: seq<string> := [];
    ghost var done: seq<PortSpec> := [];
    assert reqs[0..] == reqs;
    PrefixNone(AssignAll(reqs, used, existing));
    for i := 0 to |reqs|
      invariant result == PrintAll(done)
      invariant AssignAll(reqs, used0, existing) == Prefixed(done, AssignAll(reqs[i..], used, existing))
    {
      var req := reqs[i];
      assert reqs[i..][0] == req && reqs[i..][1..] == reqs[i + 1..];
      var port := req;
      if req.hostPort > 0 {
        if HostKey(req) in used { return Rejected(HostPortConflict(req.hostPort, req.protocol)); }
      } else if ContainerKey(req) in existing && (existing[ContainerKey(req)], req.protocol) !in used {
        port := req.(hostPort := existing[ContainerKey(req)]);
      } else {
        var n := RunAllocate(used, req.protocol);
        if n.None? { return Rejected(NoHostPorts); }
        port := req.(hostPort := n.value);
      }
      assert Choose(req, used, existing) == Assigned(port);
      PrefixStep(done, port, AssignAll(reqs[i + 1..], used + {HostKey(port)}, existing));
      used, result, done := used + {HostKey(port)}, result + [Binding(port)], done + [port];
    }
    assert reqs[|reqs|..] == [] && done + [] == done;
    return Assigned(result);
  }

  ghost function Prefixed(done: seq<PortSpec>, rest: Outcome<seq<PortSpec>>): Outcome<seq<PortSpec>> {
    match rest
    case Rejected(e) => Rejected(e)
    case Assigned(ps) => Assigned(done + ps)
  }

  lemma PrefixNone(rest: Outcome<seq<PortSpec>>)
    ensures Prefixed([], rest) == rest
  {
    if rest.Assigned? { assert [] + rest.value == rest.value; }
  }

  lemma PrefixStep(done: seq<PortSpec>, p: PortSpec, rest: Outcome<seq<PortSpec>>)
    ensures Prefixed(done, Prefixed([p], rest)) == Prefixed(done + [p], rest)
  {
    if rest.Assigned? { assert done + ([p] + rest.value) == (done + [p]) + rest.value; }
  }

  // ---------------------------------------------------------------- what an assignment guarantees

  predicate ValidRequest(req: PortSpec) {
    ValidPort(req.containerPort) && (req.hostPort == 0 || ValidPort(req.hostPort))
  }

  predicate ValidRequests(reqs: seq<PortSpec>) { forall i :: 0 <= i < |reqs| ==> ValidRequest(reqs[i]) }

  predicate ValidExisting(existing: map<Key, nat>) { forall k :: k in existing ==> ValidPort(existing[k]) }

  predicate DistinctKeys(ps: seq<PortSpec>) {
    forall i, j :: 0 <= i < j < |ps| ==> HostKey(ps[i]) != HostKey(ps[j])
  }

  predicate DistinctContainers(ps: seq<PortSpec>) {
    forall i, j :: 0 <= i < j < |ps| ==> ContainerKey(ps[i]) != ContainerKey(ps[j])
  }

  predicate DisjointFrom(ps: seq<PortSpec>, used: set<Key>) {
    forall i :: 0 <= i < |ps| ==> HostKey(ps[i]) !in used
  }

  /** Each mapping answers its request: same container port, and the same host port if one was named. */
  predicate Answers(reqs: seq<PortSpec>, ps: seq<PortSpec>) {
    |reqs| == |ps| && forall i :: 0 <= i < |reqs| ==>
      ContainerKey(ps[i]) == ContainerKey(reqs[i]) && (reqs[i].hostPort > 0 ==> ps[i] == reqs[i])
  }

  predicate Records(existing: map<Key, nat>, p: PortSpec) {
    ContainerKey(p) in existing && existing[ContainerKey(p)] == p.hostPort
  }

  predicate AllBound(ps: seq<PortSpec>) { forall i :: 0 <= i < |ps| ==> Bound(ps[i]) }

  /** An assignment answers the requests with ports that are free, distinct and valid. */
  lemma {:induction false} AssignmentIsFree(reqs: seq<PortSpec>, used: set<Key>, existing: map<Key, nat>)
    requires ValidRequests(reqs) && ValidExisting(existing)
    requires AssignAll(reqs, used, existing).Assigned?
    ensures var ps := AssignAll(reqs, used, existing).value;
            Answers(reqs, ps) && AllBound(ps) && DistinctKeys(ps) && DisjointFrom(ps, used)
  {
    if reqs != [] {
      var p := Choose(reqs[0], used, existing).value;
      AssignmentIsFree(reqs[1..], used + {HostKey(p)}, existing);
      var rest := AssignAll(reqs[1..], used + {HostKey(p)}, existing).value;
      assert AssignAll(reqs, used, existing).value == [p] + rest;
      assert ValidRequest(reqs[0]);
      forall i | 0 <= i < |rest| ensures HostKey(rest[i]) !in used && HostKey(rest[i]) != HostKey(p) {}
    }
  }

  /** The i-th request is the first that cannot be served: it names a host port that is taken, or
      leaves it open when every port of the range is. `given` are the mappings of the earlier ones. */
  predicate Unserved(reqs: seq<PortSpec>, used: set<Key>, given: seq<PortSpec>, i: int, e: AssignError) {
    && |given| == i < |reqs| && Answers(reqs[..i], given)
    && match e
       case HostPortConflict(n, protocol) =>
         n > 0 && n == reqs[i].hostPort && protocol == reqs[i].protocol && Taken(used, given, (n, protocol))
       case NoHostPorts =>
         reqs[i].hostPort == 0 &&
         forall m: nat :: RANGE_MIN <= m <= RANGE_MAX ==> Taken(used, given, (m, reqs[i].protocol))
       case Malformed => false
  }

  predicate Taken(used: set<Key>, given: seq<PortSpec>, k: Key) {
    k in used || exists j :: 0 <= j < |given| && HostKey(given[j]) == k
  }

  lemma {:induction false} RejectedAt(reqs: seq<PortSpec>, used: set<Key>, existing: map<Key, nat>)
    returns (given: seq<PortSpec>, i: nat)
    requires AssignAll(reqs, used, existing).Rejected?
    ensures Unserved(reqs, used, given, i, AssignAll(reqs, used, existing).error)
  {
    hide Allocate;
    given, i := [], 0;
    if Choose(reqs[0], used, existing).Assigned? {
      var p := Choose(reqs[0], used, existing).value;
      var e := AssignAll(reqs, used, existing).error;
      var rest, k := RejectedAt(reqs[1..], used + {HostKey(p)}, existing);
      given, i := [p] + rest, k + 1;
      UnservedLater(reqs, used, p, rest, k, e);
    } else {
      AllTaken(reqs[0], used, existing);
    }
  }

  lemma AllTaken(req: PortSpec, used: set<Key>, existing: map<Key, nat>)
    ensures Choose(req, used, existing) == Rejected(NoHostPorts) ==>
              forall m: nat :: RANGE_MIN <= m <= RANGE_MAX ==> (m, req.protocol) in used
  {
  }

  lemma UnservedLater(reqs: seq<PortSpec>, used: set<Key>, p: PortSpec, rest: seq<PortSpec>, k: nat, e: AssignError)
    requires reqs != [] && ContainerKey(p) == ContainerKey(reqs[0]) && (reqs[0].hostPort > 0 ==> p == reqs[0])
    requires Unserved(reqs[1..], used + {HostKey(p)}, rest, k, e)
    ensures Unserved(reqs, used, [p] + rest, k + 1, e)
  {
    var given := [p] + rest;
    forall key | Taken(used + {HostKey(p)}, rest, key) ensures Taken(used, given, key) {
      if key == HostKey(p) {
        assert HostKey(given[0]) == key;
      } else if key !in used {
        var j :| 0 <= j < |rest| && HostKey(rest[j]) == key;
        assert HostKey(given[j + 1]) == key;
      }
    }
    assert reqs[..k + 1] == [reqs[0]] + reqs[1..][..k];
  }

  lemma {:induction false} ParseFails(raw: seq<string>, kept: seq<PortSpec>)
    ensures ParseSpecs(raw, kept).None? <==> exists i :: 0 <= i < |raw| && ParseApi(raw[i]).None?
    decreases |raw|
  {
    hide ParseApi;
    if raw != [] && ParseApi(raw[0]).Some? {
      var p := ParseApi(raw[0]).value;
      ParseFails(raw[1..], if p in kept then kept else kept + [p]);
      assert forall i :: 0 < i < |raw| ==> raw[1..][i - 1] == raw[i];
    }
  }

  /** Another deployment of the listing holds the host port. */
  predicate HeldByOther(all: seq<Deployment>, skip: string, k: Key) {
    exists i :: 0 <= i < |all| && all[i].id != skip && k in KeysOf(all[i].ports)
  }

  /** A request is rejected as malformed exactly when one of its mappings does not parse, and
      otherwise only because a first mapping cannot be served. */
  lemma RejectionHasCause(all: seq<Deployment>, skip: string, current: seq<string>, requested: seq<string>)
    returns (given: seq<PortSpec>, i: nat)
    ensures var r := AssignHostPorts(all, skip, current, requested);
            && (r == Rejected(Malformed) <==> exists j :: 0 <= j < |requested| && ParseApi(requested[j]).None?)
            && (r.Rejected? && r.error != Malformed ==>
                  ParseSpecs(requested, []).Some? &&
                  Unserved(ParseSpecs(requested, []).value, UsedKeys(all, skip), given, i, r.error))
    ensures forall k :: k in UsedKeys(all, skip) <==> HeldByOther(all, skip, k)
  {
    hide ParseSpecs, ParseApi, KeysOf, AssignAll, Existing, Unserved;
    given, i := [], 0;
    ParseFails(requested, []);
    if requested != [] && ParseSpecs(requested, []).Some? {
      var reqs, used := ParseSpecs(requested, []).value, UsedKeys(all, skip);
      if AssignAll(reqs, used, Existing(current)).Rejected? {
        given, i := RejectedAt(reqs, used, Existing(current));
        NotMalformed(reqs, used, given, i, AssignAll(reqs, used, Existing(current)).error);
      }
    }
  }

  lemma NotMalformed(reqs: seq<PortSpec>, used: set<Key>, given: seq<PortSpec>, i: int, e: AssignError)
    requires Unserved(reqs, used, given, i, e)
    ensures e != Malformed
  {
  }

  /** Submitting the assigned mappings verbatim returns them, whatever is bound now. */
  lemma {:induction false} VerbatimIsStable(ps: seq<PortSpec>, used: set<Key>, existing: map<Key, nat>)
    requires AllBound(ps) && DistinctKeys(ps) && DisjointFrom(ps, used)
    ensures AssignAll(ps, used, existing) == Assigned(ps)
  {
    if ps != [] {
      assert Bound(ps[0]) && HostKey(ps[0]) !in used;
      forall i | 0 <= i < |ps[1..]| ensures HostKey(ps[1..][i]) !in used + {HostKey(ps[0])} {
        assert ps[1..][i] == ps[i + 1];
      }
      VerbatimIsStable(ps[1..], used + {HostKey(ps[0])}, existing);
      assert ps == [ps[0]] + ps[1..];
    }
  }

  /** Submitting the request again returns the mappings it was given, when `now` records those of the
      requests that name no host port. */
  lemma {:induction false} RequestIsStable(reqs: seq<PortSpec>, used: set<Key>, before: map<Key, nat>,
                                           now: map<Key, nat>)
    requires ValidRequests(reqs) && ValidExisting(before)
    requires AssignAll(reqs, used, before).Assigned?
    requires var ps := AssignAll(reqs, used, before).value;
             |ps| == |reqs| && forall i :: 0 <= i < |ps| && reqs[i].hostPort == 0 ==> Records(now, ps[i])
    ensures AssignAll(reqs, used, now) == AssignAll(reqs, used, before)
  {
    if reqs != [] {
      AssignmentIsFree(reqs, used, before);
      var ps := AssignAll(reqs, used, before).value;
      var p := Choose(reqs[0], used, before).value;
      var rest := AssignAll(reqs[1..], used + {HostKey(p)}, before).value;
      assert ps == [p] + rest;
      assert ps[0] == p && HostKey(p) !in used && ContainerKey(p) == ContainerKey(reqs[0]);
      assert Choose(reqs[0], used, now) == Assigned(p);
      AssignmentIsFree(reqs[1..], used + {HostKey(p)}, before);
      forall i | 0 <= i < |rest| && reqs[1..][i].hostPort == 0 ensures Records(now, rest[i]) {
        assert rest[i] == ps[i + 1] && reqs[1..][i] == reqs[i + 1];
      }
      RequestIsStable(reqs[1..], used + {HostKey(p)}, before, now);
    }
  }

  lemma ExistingWithLast(ports: seq<string>, p: PortSpec)
    requires Bound(p)
    ensures Existing(ports + [Binding(p)]) == Existing(ports)[ContainerKey(p) := p.hostPort]
  {
    hide ParseApi, Binding;
    PrintParse(p);
    assert (ports + [Binding(p)])[..|ports|] == ports;
  }

  /** Existing records, for a container port that occurs, the last binding of it. */
  lemma {:induction false} ExistingIsLast(ps: seq<PortSpec>, i: nat) returns (j: nat)
    requires AllBound(ps) && i < |ps|
    ensures i <= j < |ps| && ContainerKey(ps[j]) == ContainerKey(ps[i]) && Records(Existing(PrintAll(ps)), ps[j])
    ensures forall k :: j < k < |ps| ==> ContainerKey(ps[k]) != ContainerKey(ps[i])
  {
    hide ParseApi, Binding, Existing;
    var n := |ps| - 1;
    assert PrintAll(ps) == PrintAll(ps[..n]) + [Binding(ps[n])];
    ExistingWithLast(PrintAll(ps[..n]), ps[n]);
    if ContainerKey(ps[n]) == ContainerKey(ps[i]) {
      j := n;
    } else {
      j := ExistingIsLast(ps[..n], i);
    }
  }

  /** No request that leaves the host port open is followed by another for the same container port. */
  predicate OpenRequestsAreLast(reqs: seq<PortSpec>) {
    forall i, j :: 0 <= i < j < |reqs| && reqs[i].hostPort == 0 ==> ContainerKey(reqs[i]) != ContainerKey(reqs[j])
  }

  /** The host ports taken when the i-th request is served. */
  function UsedBefore(used: set<Key>, ps: seq<PortSpec>, i: nat): set<Key>
    requires i <= |ps|
  {
    used + set k | 0 <= k < i :: HostKey(ps[k])
  }

  lemma {:induction false} ServedAt(reqs: seq<PortSpec>, used: set<Key>, existing: map<Key, nat>, ps: seq<PortSpec>,
                                    i: nat)
    requires AssignAll(reqs, used, existing) == Assigned(ps) && |ps| == |reqs| && i < |reqs|
    ensures Choose(reqs[i], UsedBefore(used, ps, i), existing) == Assigned(ps[i])
  {
    hide Choose;
    var p := Choose(reqs[0], used, existing).value;
    assert ps == [p] + AssignAll(reqs[1..], used + {HostKey(p)}, existing).value;
    if i == 0 {
      assert UsedBefore(used, ps, 0) == used;
    } else {
      ServedAt(reqs[1..], used + {HostKey(p)}, existing, ps[1..], i - 1);
      UsedShifts(used, ps, i);
    }
  }

  lemma UsedShifts(used: set<Key>, ps: seq<PortSpec>, i: nat)
    requires 0 < i <= |ps|
    ensures UsedBefore(used + {HostKey(ps[0])}, ps[1..], i - 1) == UsedBefore(used, ps, i)
  {
    forall k | 0 <= k < i ensures HostKey(ps[k]) in UsedBefore(used + {HostKey(ps[0])}, ps[1..], i - 1) {
      if k > 0 { assert ps[1..][k - 1] == ps[k]; }
    }
  }

  /** An open request before another for its container port is given that one's host port. */
  lemma EarlierOpenMoves(reqs: seq<PortSpec>, used: set<Key>, ps: seq<PortSpec>, i: nat, j: nat)
    requires Answers(reqs, ps) && AllBound(ps) && DistinctKeys(ps) && DisjointFrom(ps, used)
    requires i < j < |reqs| && reqs[i].hostPort == 0 && ContainerKey(reqs[i]) == ContainerKey(reqs[j])
    ensures AssignAll(reqs, used, Existing(PrintAll(ps))) != Assigned(ps)
  {
    hide Existing, AssignAll, Allocate;
    var now := Existing(PrintAll(ps));
    var last := ExistingIsLast(ps, j);
    assert last > i && HostKey(ps[i]) != HostKey(ps[last]);
    assert HostKey(ps[last]) !in UsedBefore(used, ps, i);
    assert Choose(reqs[i], UsedBefore(used, ps, i), now) != Assigned(ps[i]);
    if AssignAll(reqs, used, now) == Assigned(ps) { ServedAt(reqs, used, now, ps, i); }
  }

  lemma {:induction false} ParsePrinted(ps: seq<PortSpec>, kept: seq<PortSpec>)
    requires AllBound(ps) && DistinctKeys(kept + ps)
    ensures ParseSpecs(PrintAll(ps), kept) == Some(kept + ps)
    decreases |ps|
  {
    hide ParseApi, Binding, PrintAll, DistinctKeys, ParsePoller, ParseConfig;
    if ps == [] {
      assert kept + ps == kept;
    } else {
      PrintParse(ps[0]);
      assert PrintAll(ps)[1..] == PrintAll(ps[1..]);
      HeadIsNew(kept, ps);
      assert kept + ps == (kept + [ps[0]]) + ps[1..];
      ParsePrinted(ps[1..], kept + [ps[0]]);
    }
  }

  lemma HeadIsNew(kept: seq<PortSpec>, ps: seq<PortSpec>)
    requires ps != [] && DistinctKeys(kept + ps)
    ensures ps[0] !in kept
  {
    forall i | 0 <= i < |kept| ensures kept[i] != ps[0] {
      assert (kept + ps)[i] == kept[i] && (kept + ps)[|kept|] == ps[0];
    }
  }

  lemma {:induction false} ParsedAreValid(raw: seq<string>, kept: seq<PortSpec>)
    requires ValidRequests(kept) && ParseSpecs(raw, kept).Some?
    ensures ValidRequests(ParseSpecs(raw, kept).value)
    decreases |raw|
  {
    hide ParseApi;
    if raw != [] {
      var p := ParseApi(raw[0]).value;
      ParsedAreValid(raw[1..], if p in kept then kept else kept + [p]);
    }
  }

  lemma {:induction false} ExistingIsValid(ports: seq<string>)
    ensures ValidExisting(Existing(ports))
  {
    hide ParseApi;
    if ports != [] { ExistingIsValid(ports[..|ports| - 1]); }
  }

  /** Everything the callers rely on, for the strings that assignHostPorts returns. */
  lemma AssignedStrings(all: seq<Deployment>, skip: string, current: seq<string>, requested: seq<string>)
    returns (ps: seq<PortSpec>)
    requires AssignHostPorts(all, skip, current, requested).Assigned?
    ensures AssignHostPorts(all, skip, current, requested).value == PrintAll(ps)
    ensures AllBound(ps) && DistinctKeys(ps) && DisjointFrom(ps, UsedKeys(all, skip))
  {
    hide ParseApi, Binding, UsedKeys, Existing, AssignAll;
    if requested == [] {
      ps := [];
    } else {
      var reqs := ParseSpecs(requested, []).value;
      ParsedAreValid(requested, []);
      ExistingIsValid(current);
      ps := AssignAll(reqs, UsedKeys(all, skip), Existing(current)).value;
      AssignmentIsFree(reqs, UsedKeys(all, skip), Existing(current));
    }
  }

  predicate SameOthers(all: seq<Deployment>, all': seq<Deployment>, id: string) {
    UsedKeys(all, id) == UsedKeys(all', id)
  }

  /** Resubmitting the assigned bindings verbatim gives the same bindings. */
  lemma ResubmitVerbatim(all: seq<Deployment>, all': seq<Deployment>, id: string, current: seq<string>,
                         requested: seq<string>, now: seq<string>)
    requires AssignHostPorts(all, id, current, requested).Assigned? && SameOthers(all, all', id)
    ensures var bs := AssignHostPorts(all, id, current, requested).value;
            AssignHostPorts(all', id, now, bs) == Assigned(bs)
  {
    hide ParseSpecs, ParseApi, Binding, UsedKeys, Existing, AssignAll;
    var ps := AssignedStrings(all, id, current, requested);
    var bs := AssignHostPorts(all, id, current, requested).value;
    if bs != [] {
      assert [] + ps == ps;
      ParsePrinted(ps, []);
      VerbatimIsStable(ps, UsedKeys(all', id), Existing(now));
    }
  }

  lemma {:induction false} PrintAllInjective(ps: seq<PortSpec>, qs: seq<PortSpec>)
    requires AllBound(ps) && AllBound(qs) && PrintAll(ps) == PrintAll(qs)
    ensures ps == qs
  {
    hide Binding;
    assert |ps| == |PrintAll(ps)| == |qs|;
    forall i | 0 <= i < |ps| ensures ps[i] == qs[i] {
      assert PrintAll(ps)[i] == Binding(ps[i]) && PrintAll(qs)[i] == Binding(qs[i]);
      BindingInjective(ps[i], qs[i]);
    }
  }

  /** The same for the parsed requests. */
  lemma ReassignExactly(reqs: seq<PortSpec>, used: set<Key>, before: map<Key, nat>)
    requires ValidRequests(reqs) && ValidExisting(before) && AssignAll(reqs, used, before).Assigned?
    ensures var ps := AssignAll(reqs, used, before).value;
            AssignAll(reqs, used, Existing(PrintAll(ps))) == Assigned(ps) <==> OpenRequestsAreLast(reqs)
  {
    hide Existing, AssignAll;
    AssignmentIsFree(reqs, used, before);
    var ps := AssignAll(reqs, used, before).value;
    if OpenRequestsAreLast(reqs) {
      forall i | 0 <= i < |ps| && reqs[i].hostPort == 0 ensures Records(Existing(PrintAll(ps)), ps[i]) {
        var j := ExistingIsLast(ps, i);
        assert ContainerKey(reqs[i]) == ContainerKey(reqs[j]);
      }
      RequestIsStable(reqs, used, before, Existing(PrintAll(ps)));
    } else {
      var i, j :| 0 <= i < j < |reqs| && reqs[i].hostPort == 0 && ContainerKey(reqs[i]) == ContainerKey(reqs[j]);
      EarlierOpenMoves(reqs, used, ps, i, j);
    }
  }

  /** Resubmitting an accepted request gives the same bindings exactly when none of its mappings
      without host port is followed by another mapping of the same container port and protocol. */
  lemma ResubmitRequest(all: seq<Deployment>, all': seq<Deployment>, id: string, current: seq<string>,
                        requested: seq<string>)
    requires AssignHostPorts(all, id, current, requested).Assigned? && SameOthers(all, all', id)
    ensures ParseSpecs(requested, []).Some?
    ensures var bs := AssignHostPorts(all, id, current, requested).value;
            AssignHostPorts(all', id, bs, requested) == Assigned(bs) <==>
              OpenRequestsAreLast(ParseSpecs(requested, []).value)
  {
    hide ParseApi, Binding, UsedKeys, Existing, AssignAll, OpenRequestsAreLast;
    if requested == [] {
      NothingOpen();
    } else {
      var reqs, used := ParseSpecs(requested, []).value, UsedKeys(all, id);
      ParsedAreValid(requested, []);
      ExistingIsValid(current);
      ReassignExactly(reqs, used, Existing(current));
      AssignmentIsFree(reqs, used, Existing(current));
      var ps := AssignAll(reqs, used, Existing(current)).value;
      var again := AssignAll(reqs, used, Existing(PrintAll(ps)));
      ExistingIsValid(PrintAll(ps));
      if again.Assigned? {
        AssignmentIsFree(reqs, used, Existing(PrintAll(ps)));
        if PrintAll(again.value) == PrintAll(ps) { PrintAllInjective(again.value, ps); }
      }
    }
  }

  lemma NothingOpen()
    ensures OpenRequestsAreLast([])
  {
  }

  /** In particular when the container ports are distinct. */
  lemma ResubmitDistinct(all: seq<Deployment>, all': seq<Deployment>, id: string, current: seq<string>,
                         requested: seq<string>)
    requires AssignHostPorts(all, id, current, requested).Assigned? && SameOthers(all, all', id)
    requires ParseSpecs(requested, []).Some? && DistinctContainers(ParseSpecs(requested, []).value)
    ensures var bs := AssignHostPorts(all, id, current, requested).value;
            AssignHostPorts(all', id, bs, requested) == Assigned(bs)
  {
    hide ParseSpecs, AssignHostPorts, SameOthers;
    ResubmitRequest(all, all', id, current, requested);
  }

  /** A bare container port parses as a mapping that leaves the host port open. */
  lemma OpenParses(n: nat)
    requires ValidPort(n)
    ensures ParseApi(Itoa(n)) == Some(PortSpec(0, n, Tcp))
  {
    hide Itoa, Atoi, Cut, Split, TrimSpace, Trimmed, ParseProtocol;
    AtoiItoa(n);
    CutNone(Itoa(n), '/');
    SplitPlain(Itoa(n), ':');
  }

  lemma EightyTexts()
    ensures Itoa(80) == "80" && Itoa(8080) == "8080"
  {
    assert Itoa(8) == "8";
    assert Itoa(80) == Itoa(8) + "0";
    assert Itoa(808) == Itoa(80) + "8";
    assert Itoa(8080) == Itoa(808) + "0";
  }

  lemma EightyParses()
    ensures ParseApi("80") == Some(PortSpec(0, 80, Tcp)) && ParseApi("8080:80") == Some(PortSpec(8080, 80, Tcp))
    ensures Binding(PortSpec(8080, 80, Tcp)) == "8080:80"
  {
    hide Itoa, ParseApi, ParseConfig, ParsePoller, Binding;
    EightyTexts();
    OpenParses(80);
    EightyBinding();
    PrintParse(PortSpec(8080, 80, Tcp));
  }

  lemma EightyBinding()
    ensures Binding(PortSpec(8080, 80, Tcp)) == "8080:80"
  {
    EightyTexts();
    hide Itoa;
    assert "8080" + ":" + "80" + "" == "8080:80";
  }

  lemma EightySpecs()
    ensures ParseSpecs(["80", "8080:80"], []) == Some([PortSpec(0, 80, Tcp), PortSpec(8080, 80, Tcp)])
  {
    EightyParses();
    hide ParseApi, Binding;
    var raw, a, b := ["80", "8080:80"], PortSpec(0, 80, Tcp), PortSpec(8080, 80, Tcp);
    assert raw[1..] == ["8080:80"] && raw[1..][1..] == [];
    assert [] + [a] == [a] && [a] + [b] == [a, b];
    assert ParseSpecs([], [a, b]) == Some([a, b]);
    assert ParseSpecs(raw[1..], [a]) == Some([a, b]);
  }

  /** With no other deployment, the request ["80", "8080:80"] is accepted, and rejected when it is
      submitted again for the bindings it was given. */
  lemma RepeatedContainerNotStable(id: string)
    ensures var requested := ["80", "8080:80"]; var bs := [Binding(PortSpec(RANGE_MIN, 80, Tcp)), "8080:80"];
            AssignHostPorts([], id, [], requested) == Assigned(bs) &&
            AssignHostPorts([], id, bs, requested) == Rejected(HostPortConflict(8080, Tcp))
  {
    hide ParseApi, ParseSpecs, Binding, Existing, Itoa;
    EightyParses();
    EightySpecs();
    var a, b := PortSpec(0, 80, Tcp), PortSpec(8080, 80, Tcp);
    var first := PortSpec(RANGE_MIN, 80, Tcp);
    assert UsedKeys([], id) == {};
    NothingExists();
    AssignPair(a, b, {}, map[]);
    assert PrintAll([first, b]) == [Binding(first), "8080:80"];
    LastBindingWins(first, b);
    AssignPair(a, b, {}, Existing(PrintAll([first, b])));
  }

  lemma NothingExists()
    ensures Existing([]) == map[]
  {
  }

  lemma AssignPair(a: PortSpec, b: PortSpec, used: set<Key>, existing: map<Key, nat>)
    requires Choose(a, used, existing).Assigned?
    ensures var p := Choose(a, used, existing).value;
            match Choose(b, used + {HostKey(p)}, existing)
            case Assigned(q) => AssignAll([a, b], used, existing) == Assigned([p, q])
            case Rejected(e) => AssignAll([a, b], used, existing) == Rejected(e)
  {
    hide Choose;
    var p := Choose(a, used, existing).value;
    var used' := used + {HostKey(p)};
    assert [a, b][1..] == [b] && [b][1..] == [];
    if Choose(b, used', existing).Assigned? {
      var q := Choose(b, used', existing).value;
      assert AssignAll([], used' + {HostKey(q)}, existing) == Assigned([]);
      assert [q] + [] == [q] && [p] + [q] == [p, q];
      assert AssignAll([b], used', existing) == Assigned([q]);
    } else {
      assert AssignAll([b], used', existing).Rejected?;
    }
  }

  lemma LastBindingWins(a: PortSpec, b: PortSpec)
    requires Bound(a) && Bound(b)
    ensures var now := Existing(PrintAll([a, b])); ContainerKey(b) in now && now[ContainerKey(b)] == b.hostPort
  {
    hide ParseApi, Binding, Existing;
    assert PrintAll([a, b]) == PrintAll([a]) + [Binding(b)];
    ExistingWithLast(PrintAll([a]), b);
  }
}
