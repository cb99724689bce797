/** What holds over every serialised run of the deployment handlers from an empty store: host
    ports never clash, every deployment with a domain is routed to itself, and a write that does
    not ask for a redeploy leaves what the container was started from unchanged. */
module ApiRuns {
  import opened Text
  import opened Paths
  import opened Ports
  import opened HostPorts
  import opened Store
  import opened Api

  // ---------------------------------------------------------------- the invariant

  /** A stored port list: printed bound mappings with pairwise distinct host ports. */
  predicate StoredPorts(ports: seq<string>) {
    && (forall i :: 0 <= i < |ports| ==> StoredPort(ports[i]))
    && (forall i, j :: 0 <= i < j < |ports| ==> HostKey(SpecOf(ports[i])) != HostKey(SpecOf(ports[j])))
  }

  predicate StoredPort(port: string) {
    ParseApi(port).Some? && Bound(ParseApi(port).value) && port == Binding(ParseApi(port).value)
  }

  function SpecOf(port: string): PortSpec {
    if ParseApi(port).Some? then ParseApi(port).value else PortSpec(0, 0, Tcp)
  }

  /** Distinct deployments share no (host port, protocol) pair. */
  predicate DisjointPorts(s: Deployments) {
    forall a, b :: a in s && b in s && a != b ==> KeysOf(s[a].ports) !! KeysOf(s[b].ports)
  }

  predicate ApiWritten(env: Env, d: Deployment) {
    && (forall i :: 0 <= i < |d.fileMounts| ==> Clean(d.fileMounts[i].target) == d.fileMounts[i].target)
    && (d.basicAuth.Some? ==> HashedUsers(env, d.basicAuth.value))
  }

  predicate HashedUsers(env: Env, users: seq<BasicAuthUser>) {
    users != [] && forall i :: 0 <= i < |users| ==> env.isHash(users[i].password)
  }

  predicate GoodRecord(env: Env, id: string, d: Deployment) {
    && d.id == id && id != "" && StoredPorts(d.ports)
    && ProxyPortAccepted(d.domain, d.proxyPort, d.ports) && ApiWritten(env, d)
  }

  ghost predicate Inv(env: Env, s: Deployments) {
    DisjointPorts(s) && forall id :: id in s ==> GoodRecord(env, id, s[id])
  }

  // ---------------------------------------------------------------- runs

  datatype Call =
    | CallCreate(id: string, req: Request, all: seq<Deployment>)
    | CallUpdate(id: string, req: Request, all: seq<Deployment>)
    | CallPatch(id: string, patch: PatchRequest, all: seq<Deployment>)
    | CallDelete(id: string)
    | CallStatus(id: string, status: Status, reason: string, error: string)

  function Step(env: Env, s: Deployments, call: Call, io: Io): Deployments {
    match call
    case CallCreate(id, req, all) => HandleCreate(env, s, id, req, all, io).0
    case CallUpdate(id, req, all) => HandleUpdate(env, s, id, req, all, io).0
    case CallPatch(id, req, all) => HandlePatch(env, s, id, req, all, io).0
    case CallDelete(id) => HandleDelete(s, id, io).0
    case CallStatus(id, status, reason, error) => HandleStatus(s, id, status, reason, error, io).0
  }

  /** Generated ids are not empty, and every listing is a listing of the store as it is. */
  ghost predicate Legal(s: Deployments, call: Call) {
    match call
    case CallCreate(id, _, all) => id != "" && Lists(all, s)
    case CallUpdate(_, _, all) => Lists(all, s)
    case CallPatch(_, _, all) => Lists(all, s)
    case _ => true
  }

  function Run(env: Env, s: Deployments, calls: seq<(Call, Io)>): Deployments
    decreases |calls|
  {
    if calls == [] then s else Run(env, Step(env, s, calls[0].0, calls[0].1), calls[1..])
  }

  ghost predicate LegalRun(env: Env, s: Deployments, calls: seq<(Call, Io)>)
    decreases |calls|
  {
    calls != [] ==> Legal(s, calls[0].0) && LegalRun(env, Step(env, s, calls[0].0, calls[0].1), calls[1..])
  }

  // ---------------------------------------------------------------- ports of one write

  lemma PrintedAreStored(ps: seq<PortSpec>)
    requires AllBound(ps) && DistinctKeys(ps)
    ensures StoredPorts(PrintAll(ps))
    ensures forall k :: k in KeysOf(PrintAll(ps)) <==> exists i :: 0 <= i < |ps| && HostKey(ps[i]) == k
  {
    hide ParseApi, Binding, ParseConfig, ParsePoller;
    var ports := PrintAll(ps);
    forall i | 0 <= i < |ps|
      ensures ParseApi(ports[i]) == Some(ps[i]) && SpecOf(ports[i]) == ps[i] && StoredPort(ports[i])
    {
      PrintParse(ps[i]);
    }
    forall k | exists i :: 0 <= i < |ps| && HostKey(ps[i]) == k ensures k in KeysOf(ports) {
      var i :| 0 <= i < |ps| && HostKey(ps[i]) == k;
      assert ParseApi(ports[i]).value.hostPort > 0;
    }
    forall k | k in KeysOf(ports) ensures exists i :: 0 <= i < |ps| && HostKey(ps[i]) == k {
      var i :| 0 <= i < |ports| && ParseApi(ports[i]).Some? && ParseApi(ports[i]).value.hostPort > 0 &&
               HostKey(ParseApi(ports[i]).value) == k;
      assert HostKey(ps[i]) == k;
    }
  }

  lemma UsedCoversOthers(s: Deployments, all: seq<Deployment>, skip: string, id: string)
    requires Lists(all, s) && id in s && s[id].id == id && id != skip
    ensures KeysOf(s[id].ports) <= UsedKeys(all, skip)
  {
    hide KeysOf;
    var i :| 0 <= i < |all| && all[i] == s[id];
    forall k | k in KeysOf(s[id].ports) ensures k in UsedKeys(all, skip) {
      assert all[i].id != skip && k in KeysOf(all[i].ports);
    }
  }

  /** Assigned ports can be stored, and clash with no other deployment. */
  lemma AssignedPortsFit(s: Deployments, all: seq<Deployment>, skip: string, current: seq<string>,
                         requested: seq<string>)
    requires Lists(all, s) && forall id :: id in s ==> s[id].id == id
    requires AssignHostPorts(all, skip, current, requested).Assigned?
    ensures var ports := AssignHostPorts(all, skip, current, requested).value;
            StoredPorts(ports) && forall id :: id in s && id != skip ==> KeysOf(s[id].ports) !! KeysOf(ports)
  {
    hide AssignHostPorts, KeysOf, StoredPorts, UsedKeys, PrintAll;
    var ps := AssignedStrings(all, skip, current, requested);
    PrintedAreStored(ps);
    forall id | id in s && id != skip ensures KeysOf(s[id].ports) !! KeysOf(PrintAll(ps)) {
      UsedCoversOthers(s, all, skip, id);
      forall k | k in KeysOf(PrintAll(ps)) ensures k !in KeysOf(s[id].ports) {
        var i :| 0 <= i < |ps| && HostKey(ps[i]) == k;
      }
    }
  }

  // ---------------------------------------------------------------- what the conversions write

  lemma {:induction false} SanitizedAreHashed(env: Env, users: seq<BasicAuthUser>)
    requires HashesAreHashes(env) && SanitizeUsers(env, users).Some?
    ensures var r := SanitizeUsers(env, users).value;
            |r| == |users| && forall i :: 0 <= i < |r| ==> env.isHash(r[i].password)
  {
    hide TrimSpace;
    if users != [] { SanitizedAreHashed(env, users[1..]); }
  }

  lemma SanitizeWritten(env: Env, basicAuth: Option<seq<BasicAuthUser>>)
    requires HashesAreHashes(env) && Sanitize(env, basicAuth).Some?
    ensures var r := Sanitize(env, basicAuth).value;
            r.Some? ==> HashedUsers(env, r.value)
  {
    hide SanitizeUsers;
    if basicAuth.Some? && basicAuth.value != [] { SanitizedAreHashed(env, basicAuth.value); }
  }

  lemma CleanedTargets(ms: seq<FileMount>)
    ensures forall i :: 0 <= i < |ms| ==> Clean(CleanFileMounts(ms)[i].target) == CleanFileMounts(ms)[i].target
  {
    hide Clean, TrimSpace;
    forall i | 0 <= i < |ms| ensures Clean(CleanFileMounts(ms)[i].target) == CleanFileMounts(ms)[i].target {
      CleanIdempotent(TrimSpace(ms[i].target));
    }
  }

  lemma FileMountsWritten(env: Env, id: string, mounts: Option<seq<FileMount>>)
    requires ResolveFileMounts(env, id, mounts).Some?
    ensures var r := ResolveFileMounts(env, id, mounts).value;
            forall i :: 0 <= i < |r| ==> Clean(r[i].target) == r[i].target
  {
    hide Clean, TrimSpace, CleanFileMounts, FileMountsAccepted;
    if mounts.Some? { CleanedTargets(mounts.value); }
  }

  // ---------------------------------------------------------------- one step

  /** Writing a good record whose ports clash with no other deployment keeps the invariant. */
  lemma WriteKeepsInv(env: Env, s: Deployments, id: string, d: Deployment)
    requires Inv(env, s) && GoodRecord(env, id, d)
    requires forall other :: other in s && other != id ==> KeysOf(s[other].ports) !! KeysOf(d.ports)
    ensures Inv(env, s[id := d])
  {
    hide KeysOf, GoodRecord;
    var after := s[id := d];
    forall a, b | a in after && b in after && a != b ensures KeysOf(after[a].ports) !! KeysOf(after[b].ports) {
      if a == id { assert after[b] == s[b]; } else if b == id { assert after[a] == s[a]; }
    }
  }

  lemma CreateKeepsInv(env: Env, s: Deployments, id: string, req: Request, all: seq<Deployment>, io: Io)
    requires Inv(env, s) && HashesAreHashes(env) && id != "" && Lists(all, s)
    ensures Inv(env, HandleCreate(env, s, id, req, all, io).0)
  {
    hide Sanitize, ResolveFileMounts, AssignHostPorts, ProxyPortAccepted, DomainReserved, PrivateDomainAllowed,
         NormalizeSecurity, StoredPorts, KeysOf, Clean, DisjointPorts, Lists;
    var (resp, d) := CreateRecord(env, id, req, all, io);
    if d.Some? {
      SanitizeWritten(env, req.basicAuth);
      FileMountsWritten(env, id, req.fileMounts);
      AssignedPortsFit(s, all, "", [], req.ports);
      WriteKeepsInv(env, s, id, d.value);
    }
  }

  lemma UpdateKeepsInv(env: Env, s: Deployments, id: string, req: Request, all: seq<Deployment>, io: Io)
    requires Inv(env, s) && HashesAreHashes(env) && Lists(all, s)
    ensures Inv(env, HandleUpdate(env, s, id, req, all, io).0)
  {
    hide Sanitize, ResolveFileMounts, AssignHostPorts, ProxyPortAccepted, DomainReserved, PrivateDomainAllowed,
         NormalizeSecurity, StoredPorts, KeysOf, Clean, DisjointPorts, Lists, MatchesExisting,
         UpdateRequiresRedeploy;
    if HandleUpdate(env, s, id, req, all, io).0 != s {
      var basicAuth, volumes := Sanitize(env, req.basicAuth).value,
          env.resolveVolumes(id, req.volumes, req.volumeMounts).value;
      var fileMounts := ResolveFileMounts(env, id, req.fileMounts).value;
      var d := UpdateRecord(env, s[id], id, req, basicAuth, volumes, fileMounts, all).1.value;
      SanitizeWritten(env, req.basicAuth);
      FileMountsWritten(env, id, req.fileMounts);
      AssignedPortsFit(s, all, id, s[id].ports, req.ports);
      WriteKeepsInv(env, s, id, d);
    }
  }

  lemma PatchKeepsInv(env: Env, s: Deployments, id: string, req: PatchRequest, all: seq<Deployment>, io: Io)
    requires Inv(env, s) && HashesAreHashes(env) && Lists(all, s)
    ensures Inv(env, HandlePatch(env, s, id, req, all, io).0)
  {
    hide Sanitize, ResolveFileMounts, AssignHostPorts, ProxyPortAccepted, DomainReserved, PrivateDomainAllowed,
         NormalizeSecurity, StoredPorts, KeysOf, Clean, DisjointPorts, Lists, PatchRequiresRedeploy;
    if HandlePatch(env, s, id, req, all, io).0 != s {
      var basicAuth, volumes := Sanitize(env, req.basicAuth).value, PatchVolumes(env, id, req).value;
      var fileMounts := PatchFileMounts(env, id, req).value;
      var p := PatchRecord(env, s[id], id, req, basicAuth, volumes, fileMounts, all, io).1.value;
      SanitizeWritten(env, req.basicAuth);
      if req.fileMounts.Some? { FileMountsWritten(env, id, req.fileMounts); }
      if req.ports.Some? {
        AssignedPortsFit(s, all, id, s[id].ports, req.ports.value);
      } else {
        assert DisjointPorts(s);
        OwnPortsFit(s, id);
      }
      assert GoodRecord(env, id, s[id]);
      WriteKeepsInv(env, s, id, MergePatch(s[id], p));
    }
  }

  lemma OwnPortsFit(s: Deployments, id: string)
    requires DisjointPorts(s) && id in s
    ensures forall other :: other in s && other != id ==> KeysOf(s[other].ports) !! KeysOf(s[id].ports)
  {
  }

  lemma StatusKeepsInv(env: Env, s: Deployments, id: string, status: Status, reason: string, error: string, io: Io)
    requires Inv(env, s)
    ensures Inv(env, HandleStatus(s, id, status, reason, error, io).0)
  {
    hide StoredPorts, KeysOf, ProxyPortAccepted, DisjointPorts;
    if id in s && io.read && io.write {
      assert DisjointPorts(s);
      OwnPortsFit(s, id);
      assert GoodRecord(env, id, s[id]);
      WriteKeepsInv(env, s, id, s[id].(status := status, reason := reason, error := error));
    }
  }

  lemma DeleteKeepsInv(env: Env, s: Deployments, id: string, io: Io)
    requires Inv(env, s)
    ensures Inv(env, HandleDelete(s, id, io).0)
  {
    hide KeysOf, GoodRecord;
  }

  lemma StepKeepsInv(env: Env, s: Deployments, call: Call, io: Io)
    requires Inv(env, s) && HashesAreHashes(env) && Legal(s, call)
    ensures Inv(env, Step(env, s, call, io))
  {
    hide Inv, HandleCreate, HandleUpdate, HandlePatch, HandleDelete, HandleStatus;
    match call
    case CallCreate(id, req, all) => CreateKeepsInv(env, s, id, req, all, io);
    case CallUpdate(id, req, all) => UpdateKeepsInv(env, s, id, req, all, io);
    case CallPatch(id, req, all) => PatchKeepsInv(env, s, id, req, all, io);
    case CallDelete(id) => DeleteKeepsInv(env, s, id, io);
    case CallStatus(id, status, reason, error) => StatusKeepsInv(env, s, id, status, reason, error, io);
  }

  lemma {:induction false} RunKeepsInv(env: Env, s: Deployments, calls: seq<(Call, Io)>)
    requires Inv(env, s) && HashesAreHashes(env) && LegalRun(env, s, calls)
    ensures Inv(env, Run(env, s, calls))
    decreases |calls|
  {
    hide Inv, Step, Legal;
    if calls != [] {
      StepKeepsInv(env, s, calls[0].0, calls[0].1);
      RunKeepsInv(env, Step(env, s, calls[0].0, calls[0].1), calls[1..]);
    }
  }

  // ---------------------------------------------------------------- main results

  /** Over every run from an empty store, all (host port, protocol) pairs are distinct, within a
      deployment and across deployments. */
  lemma PortsNeverClash(env: Env, calls: seq<(Call, Io)>, a: string, i: int, b: string, j: int)
    requires HashesAreHashes(env) && LegalRun(env, map[], calls)
    requires var s := Run(env, map[], calls);
             a in s && b in s && 0 <= i < |s[a].ports| && 0 <= j < |s[b].ports| && (a != b || i != j)
    ensures var s := Run(env, map[], calls);
            ParseApi(s[a].ports[i]).Some? && ParseApi(s[b].ports[j]).Some? &&
            HostKey(ParseApi(s[a].ports[i]).value) != HostKey(ParseApi(s[b].ports[j]).value)
  {
    hide ParseApi, Binding, Run, LegalRun, ProxyPortAccepted, ApiWritten;
    RunKeepsInv(env, map[], calls);
    var s := Run(env, map[], calls);
    assert GoodRecord(env, a, s[a]) && GoodRecord(env, b, s[b]);
    assert StoredPort(s[a].ports[i]) && StoredPort(s[b].ports[j]);
    if a != b {
      var k := HostKey(ParseApi(s[a].ports[i]).value);
      assert k in KeysOf(s[a].ports);
      assert HostKey(ParseApi(s[b].ports[j]).value) in KeysOf(s[b].ports);
    } else if i < j {
      assert HostKey(SpecOf(s[a].ports[i])) != HostKey(SpecOf(s[a].ports[j]));
    } else {
      assert HostKey(SpecOf(s[a].ports[j])) != HostKey(SpecOf(s[a].ports[i]));
    }
  }

  /** A good record with a domain is routed by the poller to one of its own TCP host ports. */
  lemma RoutedToItself(env: Env, id: string, d: Deployment) returns (host: nat)
    requires GoodRecord(env, id, d) && NormalizeDomain(d.domain) != ""
    ensures d.proxyPort > 0 && ProxyUpstream(d.ports, d.proxyPort) == Some(host)
    ensures (host, Tcp) in KeysOf(d.ports)
    ensures UpstreamFromPorts(d.ports, d.proxyPort) == Upstream(host)
  {
    hide ParseApi, Binding, NormalizeDomain, ServesProxyPort, ApiWritten;
    var specs := seq(|d.ports|, i requires 0 <= i < |d.ports| => SpecOf(d.ports[i]));
    forall i | 0 <= i < |specs| ensures Bound(specs[i]) && d.ports[i] == Binding(specs[i]) {
      assert StoredPort(d.ports[i]);
    }
    var i := AcceptedIsRoutable(d.ports, specs, d.proxyPort);
    assert StoredPort(d.ports[i]);
    assert HostKey(ParseApi(d.ports[i]).value) == (specs[i].hostPort, Tcp);
    host := specs[i].hostPort;
  }

  /** Over every run, each deployment with a domain has an upstream on its own TCP host port, and
      two deployments never have the same upstream. */
  lemma UpstreamsAreOwn(env: Env, calls: seq<(Call, Io)>, a: string, b: string)
    requires HashesAreHashes(env) && LegalRun(env, map[], calls)
    requires var s := Run(env, map[], calls);
             a in s && b in s && a != b && NormalizeDomain(s[a].domain) != "" && NormalizeDomain(s[b].domain) != ""
    ensures var s := Run(env, map[], calls);
            && (exists host: nat ::
                  (host, Tcp) in KeysOf(s[a].ports) && UpstreamFromPorts(s[a].ports, s[a].proxyPort) == Upstream(host))
            && UpstreamFromPorts(s[a].ports, s[a].proxyPort) != UpstreamFromPorts(s[b].ports, s[b].proxyPort)
  {
    hide UpstreamFromPorts, KeysOf, ProxyUpstream, Run, LegalRun, ProxyPortAccepted, ApiWritten, StoredPorts,
         NormalizeDomain;
    RunKeepsInv(env, map[], calls);
    var s := Run(env, map[], calls);
    var x := RoutedToItself(env, a, s[a]);
    var y := RoutedToItself(env, b, s[b]);
    assert KeysOf(s[a].ports) !! KeysOf(s[b].ports);
    assert x != y;
    if Upstream(x) == Upstream(y) {
      assert Itoa(x) == Upstream(x)[10..] == Itoa(y);
      ItoaInjective(x, y);
    }
  }

  // ---------------------------------------------------------------- redeploy soundness

  /** What the container is started from. */
  predicate SameRuntime(d: Deployment, e: Deployment) {
    && d.image == e.image && d.envs == e.envs && d.ports == e.ports && d.proxyPort == e.proxyPort
    && d.volumes == e.volumes && d.fileMounts == e.fileMounts && d.basicAuth == e.basicAuth
  }

  lemma {:induction false} SameUsersSanitize(env: Env, stored: seq<BasicAuthUser>, request: seq<BasicAuthUser>)
    requires |stored| == |request| && SanitizeUsers(env, request).Some?
    requires forall i :: 0 <= i < |request| ==> SameUser(stored[i], request[i]) && env.isHash(stored[i].password)
    ensures SanitizeUsers(env, request).value == stored
  {
    hide TrimSpace;
    if request != [] {
      assert SameUser(stored[0], request[0]);
      forall i | 0 <= i < |request[1..]|
        ensures SameUser(stored[1..][i], request[1..][i]) && env.isHash(stored[1..][i].password)
      {
        assert stored[1..][i] == stored[i + 1] && request[1..][i] == request[i + 1];
      }
      SameUsersSanitize(env, stored[1..], request[1..]);
      assert stored == [stored[0]] + stored[1..];
    }
  }

  lemma SameFileMountsResolve(env: Env, d: Deployment, id: string, mounts: Option<seq<FileMount>>)
    requires ApiWritten(env, d) && EqualFileMounts(d.fileMounts, mounts) && ResolveFileMounts(env, id, mounts).Some?
    ensures ResolveFileMounts(env, id, mounts).value == d.fileMounts
  {
    hide Clean, TrimSpace, FileMountsAccepted;
    var r := ResolveFileMounts(env, id, mounts).value;
    forall i | 0 <= i < |r| ensures r[i] == d.fileMounts[i] {
      assert SameFileMount(d.fileMounts[i], mounts.value[i]);
    }
  }

  lemma SameBasicAuthSanitizes(env: Env, d: Deployment, basicAuth: Option<seq<BasicAuthUser>>)
    requires ApiWritten(env, d) && EqualBasicAuth(d.basicAuth, basicAuth) && Sanitize(env, basicAuth).Some?
    ensures Sanitize(env, basicAuth).value == d.basicAuth
  {
    hide SanitizeUsers, SameUser;
    if basicAuth.Some? { SameUsersSanitize(env, d.basicAuth.value, basicAuth.value); }
  }

  /** The verdict of updateRequiresRedeploy inside the update handler. */
  predicate UpdateAsksRedeploy(env: Env, d: Deployment, id: string, req: Request, all: seq<Deployment>) {
    var ports := AssignHostPorts(all, id, d.ports, req.ports);
    var volumes := env.resolveVolumes(id, req.volumes, req.volumeMounts);
    ports.Assigned? && volumes.Some? &&
    UpdateRequiresRedeploy(d, req, if req.envs.Some? then req.envs.value else map[], ports.value, volumes.value)
  }

  /** The verdict of patchRequiresRedeploy inside the patch handler. */
  predicate PatchAsksRedeploy(env: Env, d: Deployment, id: string, req: PatchRequest, all: seq<Deployment>) {
    var ports := if req.ports.Some? then AssignHostPorts(all, id, d.ports, req.ports.value) else Assigned(d.ports);
    var volumes := PatchVolumes(env, id, req);
    ports.Assigned? && volumes.Some? &&
    PatchRequiresRedeploy(d, req, if req.ports.Some? then Some(ports.value) else None, volumes.value)
  }

  lemma UpdateRecordSound(env: Env, d: Deployment, id: string, req: Request, all: seq<Deployment>)
    requires ApiWritten(env, d) && Sanitize(env, req.basicAuth).Some? &&
             ResolveFileMounts(env, id, req.fileMounts).Some?
    requires env.resolveVolumes(id, req.volumes, req.volumeMounts).Some?
    ensures var r := UpdateRecord(env, d, id, req, Sanitize(env, req.basicAuth).value,
                                  env.resolveVolumes(id, req.volumes, req.volumeMounts).value,
                                  ResolveFileMounts(env, id, req.fileMounts).value, all).1;
            r.Some? ==> if UpdateAsksRedeploy(env, d, id, req, all) then r.value.status == Deploying
                        else SameRuntime(r.value, d) && r.value.status == d.status
  {
    hide Sanitize, ResolveFileMounts, AssignHostPorts, ProxyPortAccepted, NormalizeSecurity, MatchesExisting,
         EqualFileMounts, EqualBasicAuth, ApiWritten;
    if EqualFileMounts(d.fileMounts, req.fileMounts) { SameFileMountsResolve(env, d, id, req.fileMounts); }
    if EqualBasicAuth(d.basicAuth, req.basicAuth) { SameBasicAuthSanitizes(env, d, req.basicAuth); }
  }

  /** An update either marks the record Deploying or keeps its status and everything the container
      was started from. */
  lemma UpdateRedeploySound(env: Env, s: Deployments, id: string, req: Request, all: seq<Deployment>, io: Io)
    requires Inv(env, s) && id in s
    ensures var after := HandleUpdate(env, s, id, req, all, io).0;
            id in after && (after == s ||
            if UpdateAsksRedeploy(env, s[id], id, req, all) then after[id].status == Deploying
            else SameRuntime(after[id], s[id]) && after[id].status == s[id].status)
  {
    hide Sanitize, ResolveFileMounts, DomainReserved, PrivateDomainAllowed, UpdateRecord, UpdateAsksRedeploy,
         SameRuntime, StoredPorts, DisjointPorts, ApiWritten, ProxyPortAccepted;
    if HandleUpdate(env, s, id, req, all, io).0 != s {
      assert GoodRecord(env, id, s[id]);
      UpdateRecordSound(env, s[id], id, req, all);
    }
  }

  lemma PatchRecordSound(env: Env, d: Deployment, id: string, req: PatchRequest, all: seq<Deployment>, io: Io)
    requires ApiWritten(env, d) && Sanitize(env, req.basicAuth).Some?
    requires PatchFileMounts(env, id, req).Some? && PatchVolumes(env, id, req).Some?
    ensures var r := PatchRecord(env, d, id, req, Sanitize(env, req.basicAuth).value, PatchVolumes(env, id, req).value,
                                 PatchFileMounts(env, id, req).value, all, io).1;
            r.Some? ==> if PatchAsksRedeploy(env, d, id, req, all) then MergePatch(d, r.value).status == Deploying
                        else SameRuntime(MergePatch(d, r.value), d) && MergePatch(d, r.value).status == d.status
  {
    assert req.basicAuth.None? ==> Sanitize(env, req.basicAuth) == Some(None);
    hide Sanitize, ResolveFileMounts, AssignHostPorts, ProxyPortAccepted, NormalizeSecurity, PrivateDomainAllowed,
         EqualFileMounts, EqualBasicAuth, ApiWritten, PatchVolumes, MergePatch, PatchRequiresRedeploy, SameRuntime;
    var volumes, basicAuth := PatchVolumes(env, id, req).value, Sanitize(env, req.basicAuth).value;
    var fileMounts := PatchFileMounts(env, id, req).value;
    var r := PatchRecord(env, d, id, req, basicAuth, volumes, fileMounts, all, io).1;
    if r.Some? {
      MergeStatus(d, r.value);
      if !PatchAsksRedeploy(env, d, id, req, all) {
        CheckedFields(d, req, r.value.ports, volumes);
        if req.fileMounts.Some? { SameFileMountsResolve(env, d, id, req.fileMounts); }
        if req.basicAuth.Some? { SameBasicAuthSanitizes(env, d, req.basicAuth); }
        MergeKeepsRuntime(d, r.value);
      }
    }
  }

  lemma MergeStatus(d: Deployment, p: Patch)
    ensures MergePatch(d, p).status == if p.status.Some? then p.status.value else d.status
  {
  }

  /** What a negative patch check says about each field of the request. */
  lemma CheckedFields(d: Deployment, req: PatchRequest, ports: Option<seq<string>>, volumes: Option<seq<string>>)
    requires !PatchRequiresRedeploy(d, req, ports, volumes)
    ensures (req.image == "" || req.image == d.image) && (req.envs.Some? ==> req.envs.value == d.envs)
    ensures (ports.Some? ==> ports.value == d.ports) && (req.proxyPort.Some? ==> req.proxyPort.value == d.proxyPort)
    ensures volumes.Some? ==> volumes.value == d.volumes
    ensures req.fileMounts.Some? ==> EqualFileMounts(d.fileMounts, req.fileMounts)
    ensures req.basicAuth.Some? ==> EqualBasicAuth(d.basicAuth, req.basicAuth)
  {
    hide EqualFileMounts, EqualBasicAuth;
  }

  lemma MergeKeepsRuntime(d: Deployment, p: Patch)
    requires (p.image == "" || p.image == d.image) && (p.envs.Some? ==> p.envs.value == d.envs)
    requires (p.ports.Some? ==> p.ports.value == d.ports) && (p.proxyPort.Some? ==> p.proxyPort.value == d.proxyPort)
    requires (p.volumes.Some? ==> p.volumes.value == d.volumes) &&
             (p.fileMounts.Some? ==> p.fileMounts.value == d.fileMounts)
    requires p.basicAuth.Some? ==> p.basicAuth == d.basicAuth
    ensures SameRuntime(MergePatch(d, p), d)
  {
  }

  /** The same for a patch. */
  lemma PatchRedeploySound(env: Env, s: Deployments, id: string, req: PatchRequest, all: seq<Deployment>, io: Io)
    requires Inv(env, s) && id in s
    ensures var after := HandlePatch(env, s, id, req, all, io).0;
            id in after && (after == s ||
            if PatchAsksRedeploy(env, s[id], id, req, all) then after[id].status == Deploying
            else SameRuntime(after[id], s[id]) && after[id].status == s[id].status)
  {
    hide Sanitize, DomainReserved, PatchRecord, PatchAsksRedeploy, PatchVolumes, PatchFileMounts, MergePatch,
         SameRuntime, StoredPorts, DisjointPorts, ApiWritten, ProxyPortAccepted;
    if HandlePatch(env, s, id, req, all, io).0 != s {
      assert GoodRecord(env, id, s[id]);
      PatchRecordSound(env, s[id], id, req, all, io);
    }
  }
}
