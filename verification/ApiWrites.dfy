/** Field by field: what an accepted API request stores, when a request is accepted, and when it asks
    for a redeploy. */
module ApiWrites {
  import opened Text
  import opened Paths
  import opened Ports
  import opened HostPorts
  import opened Store
  import opened Api

  // ---------------------------------------------------------------- what is stored for each field

  /** Trimmed names, and passwords that are hashes or the hash of what was sent. */
  predicate StoredUser(env: Env, given: BasicAuthUser, stored: BasicAuthUser) {
    var password := TrimSpace(given.password);
    && stored.username == TrimSpace(given.username) && stored.username != "" && password != ""
    && (if env.isHash(password) then stored.password == password else env.hash(password) == Some(stored.password))
  }

  predicate StoredUsers(env: Env, given: Option<seq<BasicAuthUser>>, stored: Option<seq<BasicAuthUser>>) {
    if given.None? || given.value == [] then stored.None?
    else stored.Some? && |stored.value| == |given.value| &&
         forall i :: 0 <= i < |given.value| ==> StoredUser(env, given.value[i], stored.value[i])
  }

  predicate StoredFile(given: FileMount, stored: FileMount) {
    && stored.source == TrimSpace(given.source) && stored.target == Clean(TrimSpace(given.target))
    && stored.content == given.content && stored.uid == given.uid && stored.gid == given.gid
    && stored.fileMode == TrimSpace(given.fileMode) && stored.readOnly == given.readOnly
  }

  predicate StoredFiles(given: Option<seq<FileMount>>, stored: seq<FileMount>) {
    if given.None? then stored == []
    else |stored| == |given.value| && forall i :: 0 <= i < |stored| ==> StoredFile(given.value[i], stored[i])
  }

  predicate StoredSecurity(given: Option<Security>, stored: Option<Security>) {
    if given.None? then stored.None?
    else stored.Some? && stored.value == given.value.(wafMode := stored.value.wafMode) &&
         stored.value.wafMode ==
           (if ToLower(TrimSpace(given.value.wafMode)) == "enforcement" then "enforcement" else "detection")
  }

  /** The stored ports are printed mappings that answer the requested ones: same container ports, and
      the host port wherever one was named. */
  ghost predicate StoredPortsFor(requested: seq<string>, stored: seq<string>) {
    exists specs: seq<PortSpec>, given: seq<PortSpec> ::
      ParseSpecs(requested, []) == Some(specs) && stored == PrintAll(given) && AllBound(given) && Answers(specs, given)
  }

  /** The record carries the request. */
  ghost predicate Carries(env: Env, id: string, req: Request, d: Deployment) {
    && d.id == id && d.name == req.name && d.image == req.image && d.proxyPort == req.proxyPort
    && d.domain == req.domain && d.isPublic == req.isPublic
    && d.envs == (if req.envs.Some? then req.envs.value else map[])
    && env.resolveVolumes(id, req.volumes, req.volumeMounts) == Some(d.volumes)
    && StoredFiles(req.fileMounts, d.fileMounts) && StoredUsers(env, req.basicAuth, d.basicAuth)
    && StoredSecurity(req.security, d.security) && StoredPortsFor(req.ports, d.ports)
  }

  // ---------------------------------------------------------------- the conversions

  lemma {:induction false} SanitizedUsers(env: Env, users: seq<BasicAuthUser>)
    ensures SanitizeUsers(env, users).Some? <==> forall i :: 0 <= i < |users| ==> Acceptable(env, users[i])
    ensures SanitizeUsers(env, users).Some? ==>
              var stored := SanitizeUsers(env, users).value;
              |stored| == |users| && forall i :: 0 <= i < |users| ==> StoredUser(env, users[i], stored[i])
  {
    hide TrimSpace;
    if users != [] {
      SanitizedUsers(env, users[1..]);
      assert users == [users[0]] + users[1..];
      assert forall i :: 0 <= i < |users[1..]| ==> users[1..][i] == users[i + 1];
      if SanitizeUsers(env, users).Some? {
        var stored, rest := SanitizeUsers(env, users).value, SanitizeUsers(env, users[1..]).value;
        forall i | 0 <= i < |users| ensures StoredUser(env, users[i], stored[i]) && Acceptable(env, users[i]) {
          if i > 0 { assert StoredUser(env, users[1..][i - 1], rest[i - 1]) && Acceptable(env, users[1..][i - 1]); }
        }
      }
    }
  }

  /** A user that can be stored: neither field blank, and a password that is a hash or can be hashed. */
  predicate Acceptable(env: Env, u: BasicAuthUser) {
    var password := TrimSpace(u.password);
    TrimSpace(u.username) != "" && password != "" && (env.isHash(password) || env.hash(password).Some?)
  }

  /** sanitizeAndHashBasicAuth accepts exactly lists of acceptable users, and stores them in order. */
  lemma SanitizeExactly(env: Env, given: Option<seq<BasicAuthUser>>)
    ensures Sanitize(env, given).Some? <==> UsersFit(env, given)
    ensures Sanitize(env, given).Some? ==> StoredUsers(env, given, Sanitize(env, given).value)
  {
    hide SanitizeUsers, StoredUser, Acceptable;
    if given.Some? { SanitizedUsers(env, given.value); }
  }

  lemma FilesStored(env: Env, id: string, given: Option<seq<FileMount>>)
    ensures ResolveFileMounts(env, id, given).Some? ==> StoredFiles(given, ResolveFileMounts(env, id, given).value)
  {
    hide Clean, TrimSpace, FileMountsAccepted;
  }

  lemma SecurityStored(given: Option<Security>)
    ensures StoredSecurity(given, NormalizeSecurity(given))
  {
    hide TrimSpace;
  }

  lemma PortsStored(all: seq<Deployment>, skip: string, current: seq<string>, requested: seq<string>)
    requires AssignHostPorts(all, skip, current, requested).Assigned?
    ensures StoredPortsFor(requested, AssignHostPorts(all, skip, current, requested).value)
  {
    hide ParseApi, Binding, UsedKeys, Existing, AssignAll;
    var bs := AssignHostPorts(all, skip, current, requested).value;
    if requested == [] {
      assert ParseSpecs([], []) == Some([]) && bs == PrintAll([]) && AllBound([]) && Answers([], []);
    } else {
      var reqs, used := ParseSpecs(requested, []).value, UsedKeys(all, skip);
      ParsedAreValid(requested, []);
      ExistingIsValid(current);
      AssignmentIsFree(reqs, used, Existing(current));
      var ps := AssignAll(reqs, used, Existing(current)).value;
      assert bs == PrintAll(ps) && AllBound(ps) && Answers(reqs, ps);
    }
  }

  // ---------------------------------------------------------------- which requests pass the checks

  /** Not the dashboard's domain, and below the cookie domain unless the deployment is public. */
  predicate DomainFits(env: Env, domain: string, isPublic: bool) {
    var d := NormalizeDomain(domain);
    && (env.dashboardDomain == "" || d != env.dashboardDomain)
    && (isPublic || env.cookieDomain == "" || d == env.cookieDomain ||
        (d != "" && HasSuffix(d, "." + env.cookieDomain)))
  }

  predicate UsersFit(env: Env, given: Option<seq<BasicAuthUser>>) {
    given.Some? ==> forall i :: 0 <= i < |given.value| ==> Acceptable(env, given.value[i])
  }

  /** Relative sources and absolute targets, each used once, that pass the size and disk checks. */
  predicate FilesFit(env: Env, id: string, given: Option<seq<FileMount>>) {
    given.Some? ==>
      && (forall i :: 0 <= i < |given.value| ==> FileFits(given.value[i]))
      && (forall i, j :: 0 <= i < j < |given.value| ==> FilesDiffer(given.value[i], given.value[j]))
      && env.fileMountsOk(id, given.value)
  }

  predicate FileFits(m: FileMount) { ManagedName(TrimSpace(m.source)) && IsAbs(Clean(TrimSpace(m.target))) }

  predicate FilesDiffer(m: FileMount, n: FileMount) {
    TrimSpace(m.source) != TrimSpace(n.source) && Clean(TrimSpace(m.target)) != Clean(TrimSpace(n.target))
  }

  lemma FilesAccepted(env: Env, id: string, given: Option<seq<FileMount>>)
    ensures ResolveFileMounts(env, id, given).Some? <==> FilesFit(env, id, given)
  {
    hide Clean, TrimSpace, ManagedName, IsAbs;
    if given.Some? {
      var ms, cs := given.value, CleanFileMounts(given.value);
      forall i | 0 <= i < |ms| ensures FileFits(ms[i]) <==> ManagedName(cs[i].source) && IsAbs(cs[i].target) {}
      forall i, j | 0 <= i < j < |ms|
        ensures FilesDiffer(ms[i], ms[j]) <==> cs[i].source != cs[j].source && cs[i].target != cs[j].target {}
    }
  }

  /** The checks that a create or update request meets before the store is consulted. */
  predicate Admissible(env: Env, id: string, req: Request) {
    && req.name != "" && req.image != "" && DomainFits(env, req.domain, req.isPublic)
    && UsersFit(env, req.basicAuth) && FilesFit(env, id, req.fileMounts)
    && env.resolveVolumes(id, req.volumes, req.volumeMounts).Some?
  }

  lemma DomainChecked(env: Env, domain: string, isPublic: bool)
    ensures DomainFits(env, domain, isPublic) <==>
            !DomainReserved(env, domain) && (isPublic || PrivateDomainAllowed(env, domain))
  {
    hide NormalizeDomain, HasSuffix;
  }

  // ---------------------------------------------------------------- create

  /** The request names host ports that can be given, and the proxy port selects one of them. */
  predicate PortsFit(all: seq<Deployment>, skip: string, current: seq<string>, requested: seq<string>, domain: string,
                     proxyPort: int)
  {
    var given := AssignHostPorts(all, skip, current, requested);
    given.Assigned? && ProxyPortAccepted(domain, proxyPort, given.value)
  }

  /** A create is accepted exactly when the request is admissible, its ports can be given, no stored
      deployment has the name and every call succeeds; it adds the record that the request describes,
      to be deployed. Any other answer leaves the store as it is. */
  lemma CreateCarries(env: Env, s: Deployments, id: string, req: Request, all: seq<Deployment>, io: Io)
    ensures var (after, resp) := HandleCreate(env, s, id, req, all, io);
            && (resp.Accepted? <==>
                  && Admissible(env, id, req) && io.draw && io.list && io.write
                  && PortsFit(all, "", [], req.ports, req.domain, req.proxyPort)
                  && forall other :: other in s ==> s[other].name != req.name)
            && (if resp.Accepted? then after == s[id := resp.deployment] else after == s)
            && (resp.Accepted? ==> Carries(env, id, req, resp.deployment) && Starts(resp.deployment))
  {
    CreateRecordCarries(env, id, req, all, io);
    hide Sanitize, ResolveFileMounts, AssignHostPorts, ProxyPortAccepted, DomainReserved, PrivateDomainAllowed,
         NormalizeSecurity, Carries, Admissible, PortsFit, CreateRecord;
    var (resp, d) := CreateRecord(env, id, req, all, io);
    if d.Some? { assert d.value.name == req.name; }
  }

  predicate Starts(d: Deployment) { d.status == Deploying && d.reason == "" && d.error == "" }

  lemma CreateRecordCarries(env: Env, id: string, req: Request, all: seq<Deployment>, io: Io)
    ensures var (resp, d) := CreateRecord(env, id, req, all, io);
            && (d.Some? <==> Admissible(env, id, req) && io.draw && io.list &&
                             PortsFit(all, "", [], req.ports, req.domain, req.proxyPort))
            && (d.None? ==> !resp.Accepted?)
            && (d.Some? ==> resp == Accepted(d.value) && d.value.id == id && d.value.name == req.name &&
                            Carries(env, id, req, d.value) && Starts(d.value))
  {
    SanitizeExactly(env, req.basicAuth);
    FilesStored(env, id, req.fileMounts);
    FilesAccepted(env, id, req.fileMounts);
    SecurityStored(req.security);
    DomainChecked(env, req.domain, req.isPublic);
    hide Sanitize, ResolveFileMounts, AssignHostPorts, ProxyPortAccepted, DomainReserved, PrivateDomainAllowed,
         NormalizeSecurity, StoredFiles, StoredUsers, StoredSecurity, StoredPortsFor, DomainFits, UsersFit, FilesFit;
    if PortsFit(all, "", [], req.ports, req.domain, req.proxyPort) { PortsStored(all, "", [], req.ports); }
  }

  // ---------------------------------------------------------------- update

  function TrimmedFile(m: FileMount): FileMount {
    m.(source := TrimSpace(m.source), target := TrimSpace(m.target), fileMode := TrimSpace(m.fileMode))
  }

  /** The file mounts sent are, trimmed, those stored. */
  predicate RepeatsFiles(stored: seq<FileMount>, given: Option<seq<FileMount>>) {
    if given.None? then stored == []
    else stored == seq(|given.value|, i requires 0 <= i < |given.value| => TrimmedFile(given.value[i]))
  }

  function TrimmedUser(u: BasicAuthUser): BasicAuthUser {
    BasicAuthUser(TrimSpace(u.username), TrimSpace(u.password))
  }

  /** The users sent are, trimmed, those stored, hashes included. */
  predicate RepeatsUsers(stored: Option<seq<BasicAuthUser>>, given: Option<seq<BasicAuthUser>>) {
    if given.None? then stored.None?
    else stored == Some(seq(|given.value|, i requires 0 <= i < |given.value| => TrimmedUser(given.value[i])))
  }

  lemma RepeatsExactly(stored: Deployment, files: Option<seq<FileMount>>, users: Option<seq<BasicAuthUser>>)
    ensures EqualFileMounts(stored.fileMounts, files) <==> RepeatsFiles(stored.fileMounts, files)
    ensures EqualBasicAuth(stored.basicAuth, users) <==> RepeatsUsers(stored.basicAuth, users)
  {
    hide TrimSpace;
    FilesRepeated(stored.fileMounts, files);
    UsersRepeated(stored.basicAuth, users);
  }

  lemma FilesRepeated(stored: seq<FileMount>, given: Option<seq<FileMount>>)
    ensures EqualFileMounts(stored, given) <==> RepeatsFiles(stored, given)
  {
    hide TrimSpace;
    if given.Some? && |stored| == |given.value| {
      forall i | 0 <= i < |stored| ensures SameFileMount(stored[i], given.value[i]) <==>
                                           stored[i] == TrimmedFile(given.value[i]) {}
    }
  }

  lemma UsersRepeated(stored: Option<seq<BasicAuthUser>>, given: Option<seq<BasicAuthUser>>)
    ensures EqualBasicAuth(stored, given) <==> RepeatsUsers(stored, given)
  {
    hide TrimSpace;
    if given.Some? && stored.Some? && |stored.value| == |given.value| {
      var ss, gs := stored.value, given.value;
      forall i | 0 <= i < |ss| ensures SameUser(ss[i], gs[i]) <==> ss[i] == TrimmedUser(gs[i]) {}
      var ts := seq(|gs|, i requires 0 <= i < |gs| => TrimmedUser(gs[i]));
      assert ss == ts <==> forall i :: 0 <= i < |ss| ==> ss[i] == TrimmedUser(gs[i]);
    }
  }

  /** The request changes nothing that the container was started from: `d` is the record that it
      describes, and its file mounts and users are sent as they are stored. */
  predicate SameContainer(stored: Deployment, d: Deployment, files: Option<seq<FileMount>>,
                          users: Option<seq<BasicAuthUser>>)
  {
    && d.image == stored.image && d.envs == stored.envs && d.ports == stored.ports && d.proxyPort == stored.proxyPort
    && d.volumes == stored.volumes && RepeatsFiles(stored.fileMounts, files) && RepeatsUsers(stored.basicAuth, users)
  }

  /** The record that the request describes has the stored name, route and settings too. */
  predicate SameRecord(stored: Deployment, d: Deployment, files: Option<seq<FileMount>>) {
    && d.name == stored.name && d.image == stored.image && d.envs == stored.envs && d.ports == stored.ports
    && d.proxyPort == stored.proxyPort && d.volumes == stored.volumes && RepeatsFiles(stored.fileMounts, files)
    && d.domain == stored.domain && d.isPublic == stored.isPublic && d.basicAuth == stored.basicAuth
    && StoredSecurity(stored.security, d.security)
  }

  /** The record after an update: Deploying when what the container was started from is asked to
      change, and otherwise with the status it had; reason and error are cleared. */
  predicate Restarted(stored: Deployment, d: Deployment, files: Option<seq<FileMount>>,
                      users: Option<seq<BasicAuthUser>>)
  {
    && d.status == (if SameContainer(stored, d, files, users) then stored.status else Deploying)
    && d.reason == "" && d.error == ""
  }

  /** The record that an admissible update describes, before its status is decided. */
  lemma Described(env: Env, stored: Deployment, id: string, req: Request, all: seq<Deployment>)
    returns (d: Deployment)
    requires Admissible(env, id, req)
    requires PortsFit(all, id, stored.ports, req.ports, req.domain, req.proxyPort)
    ensures Sanitize(env, req.basicAuth).Some? && ResolveFileMounts(env, id, req.fileMounts).Some?
    ensures d == Deployment(id, req.name, req.image, if req.envs.Some? then req.envs.value else map[],
                            AssignHostPorts(all, id, stored.ports, req.ports).value, req.proxyPort,
                            env.resolveVolumes(id, req.volumes, req.volumeMounts).value,
                            ResolveFileMounts(env, id, req.fileMounts).value, req.domain, req.isPublic,
                            Sanitize(env, req.basicAuth).value, NormalizeSecurity(req.security), stored.status, "", "")
    ensures Carries(env, id, req, d)
  {
    SanitizeExactly(env, req.basicAuth);
    FilesStored(env, id, req.fileMounts);
    FilesAccepted(env, id, req.fileMounts);
    SecurityStored(req.security);
    PortsStored(all, id, stored.ports, req.ports);
    hide Sanitize, ResolveFileMounts, AssignHostPorts, ProxyPortAccepted, NormalizeSecurity, StoredFiles, StoredUsers,
         StoredSecurity, StoredPortsFor, DomainFits, UsersFit, FilesFit;
    d := Deployment(id, req.name, req.image, if req.envs.Some? then req.envs.value else map[],
                    AssignHostPorts(all, id, stored.ports, req.ports).value, req.proxyPort,
                    env.resolveVolumes(id, req.volumes, req.volumeMounts).value,
                    ResolveFileMounts(env, id, req.fileMounts).value, req.domain, req.isPublic,
                    Sanitize(env, req.basicAuth).value, NormalizeSecurity(req.security), stored.status, "", "");
  }

  lemma SecurityDetermined(given: Option<Security>, stored: Option<Security>, other: Option<Security>)
    requires StoredSecurity(given, stored)
    ensures StoredSecurity(given, other) <==> other == stored
  {
    hide TrimSpace;
  }

  lemma UpdateRecordCarries(env: Env, stored: Deployment, id: string, req: Request, all: seq<Deployment>)
    returns (d: Deployment)
    requires Admissible(env, id, req)
    requires PortsFit(all, id, stored.ports, req.ports, req.domain, req.proxyPort)
    ensures Carries(env, id, req, d) && Restarted(stored, d, req.fileMounts, req.basicAuth)
    ensures Sanitize(env, req.basicAuth).Some? && ResolveFileMounts(env, id, req.fileMounts).Some?
    ensures UpdateRecord(env, stored, id, req, Sanitize(env, req.basicAuth).value,
                         env.resolveVolumes(id, req.volumes, req.volumeMounts).value,
                         ResolveFileMounts(env, id, req.fileMounts).value, all) ==
            if SameRecord(stored, d, req.fileMounts) then (Unchanged, None) else (Accepted(d), Some(d))
  {
    SecurityStored(stored.security);
    RepeatsExactly(stored, req.fileMounts, req.basicAuth);
    SecurityDetermined(stored.security, NormalizeSecurity(stored.security), NormalizeSecurity(req.security));
    hide Sanitize, ResolveFileMounts, AssignHostPorts, ProxyPortAccepted, Admissible, EqualFileMounts, EqualBasicAuth,
         NormalizeSecurity, StoredFiles, StoredUsers, StoredSecurity, StoredPortsFor, RepeatsFiles, RepeatsUsers;
    d := Described(env, stored, id, req, all);
    d := d.(status := if SameContainer(stored, d, req.fileMounts, req.basicAuth) then stored.status else Deploying);
  }

  /** What an update needs before it compares and writes. */
  predicate UpdatePasses(env: Env, s: Deployments, id: string, req: Request, all: seq<Deployment>, io: Io) {
    && Admissible(env, id, req) && io.read && id in s && io.list
    && PortsFit(all, id, s[id].ports, req.ports, req.domain, req.proxyPort)
  }

  /** An update that passes its checks replaces the stored record, and no other, by the one that the
      request describes, unless that is the one stored. Any other update leaves the store as it is. */
  lemma UpdateCarries(env: Env, s: Deployments, id: string, req: Request, all: seq<Deployment>, io: Io)
    returns (d: Deployment)
    ensures UpdatePasses(env, s, id, req, all, io) ==>
              && Carries(env, id, req, d) && Restarted(s[id], d, req.fileMounts, req.basicAuth)
              && HandleUpdate(env, s, id, req, all, io) ==
                   if SameRecord(s[id], d, req.fileMounts) then (s, Unchanged)
                   else if io.write then (s[id := d], Accepted(d)) else (s, ServerError)
    ensures !UpdatePasses(env, s, id, req, all, io) ==>
              var (after, resp) := HandleUpdate(env, s, id, req, all, io);
              after == s && !resp.Accepted? && !resp.Unchanged?
    ensures Admissible(env, id, req) && io.read && id !in s ==>
              HandleUpdate(env, s, id, req, all, io) == (s, NotFoundResponse)
  {
    SanitizeExactly(env, req.basicAuth);
    FilesAccepted(env, id, req.fileMounts);
    DomainChecked(env, req.domain, req.isPublic);
    hide Sanitize, ResolveFileMounts, AssignHostPorts, ProxyPortAccepted, DomainReserved, PrivateDomainAllowed,
         DomainFits, UsersFit, FilesFit, Carries, Restarted, SameRecord, NormalizeSecurity, MatchesExisting,
         UpdateRequiresRedeploy, StoredUsers;
    if UpdatePasses(env, s, id, req, all, io) {
      hide UpdateRecord;
      d := UpdateRecordCarries(env, s[id], id, req, all);
    } else {
      d := *;
    }
  }

  // ---------------------------------------------------------------- patch

  function Or<T>(given: Option<T>, otherwise: T): T { if given.Some? then given.value else otherwise }

  function OrText(given: string, otherwise: string): string { if given != "" then given else otherwise }

  /** The checks that a patch meets before the store is consulted. */
  predicate PatchAdmissible(env: Env, id: string, req: PatchRequest) {
    && (req.domain == "" || env.dashboardDomain == "" || NormalizeDomain(req.domain) != env.dashboardDomain)
    && UsersFit(env, req.basicAuth) && FilesFit(env, id, req.fileMounts)
    && (req.volumeMounts.Some? ==> env.resolveVolumes(id, None, req.volumeMounts).Some?)
  }

  /** The merged domain, visibility, ports and proxy port can be routed. */
  predicate PatchRoutable(env: Env, stored: Deployment, id: string, req: PatchRequest, all: seq<Deployment>) {
    var domain := OrText(req.domain, stored.domain);
    var proxyPort := Or(req.proxyPort, stored.proxyPort);
    && (Or(req.isPublic, stored.isPublic) || PrivateDomainAllowed(env, domain))
    && (if req.ports.Some? then PortsFit(all, id, stored.ports, req.ports.value, domain, proxyPort)
        else ProxyPortAccepted(domain, proxyPort, stored.ports))
  }

  predicate PatchPasses(env: Env, s: Deployments, id: string, req: PatchRequest, all: seq<Deployment>, io: Io) {
    && PatchAdmissible(env, id, req) && io.read && id in s && (req.ports.Some? ==> io.list)
    && PatchRoutable(env, s[id], id, req, all)
  }

  /** Field by field: what was given, and otherwise what was stored. A list of no users is no users
      given. */
  ghost predicate Merges(env: Env, stored: Deployment, req: PatchRequest, d: Deployment) {
    && d.id == stored.id && d.name == stored.name
    && d.image == OrText(req.image, stored.image) && d.domain == OrText(req.domain, stored.domain)
    && d.envs == Or(req.envs, stored.envs) && d.proxyPort == Or(req.proxyPort, stored.proxyPort)
    && d.isPublic == Or(req.isPublic, stored.isPublic)
    && (if req.ports.Some? then StoredPortsFor(req.ports.value, d.ports) else d.ports == stored.ports)
    && (if req.fileMounts.Some? then StoredFiles(req.fileMounts, d.fileMounts)
        else d.fileMounts == stored.fileMounts)
    && (if req.basicAuth.Some? && req.basicAuth.value != [] then StoredUsers(env, req.basicAuth, d.basicAuth)
        else d.basicAuth == stored.basicAuth)
    && (if req.security.Some? then StoredSecurity(req.security, d.security) else d.security == stored.security)
  }

  /** Volume mounts are resolved and take precedence over volumes. */
  predicate MergesVolumes(env: Env, stored: Deployment, id: string, req: PatchRequest, d: Deployment) {
    if req.volumeMounts.Some? then env.resolveVolumes(id, None, req.volumeMounts) == Some(d.volumes)
    else d.volumes == Or(req.volumes, stored.volumes)
  }

  /** A patch asks for a redeploy when it changes what the container was started from; otherwise the
      record keeps its status, reason and error. */
  predicate RestartedByPatch(stored: Deployment, d: Deployment, req: PatchRequest) {
    var same := && d.image == stored.image && d.envs == stored.envs && d.ports == stored.ports
                && d.proxyPort == stored.proxyPort && d.volumes == stored.volumes
                && (req.fileMounts.Some? ==> RepeatsFiles(stored.fileMounts, req.fileMounts))
                && (req.basicAuth.Some? ==> RepeatsUsers(stored.basicAuth, req.basicAuth));
    if same then d.status == stored.status && d.reason == stored.reason && d.error == stored.error else Starts(d)
  }

  /** The store patch of a patch request, field by field. */
  lemma PatchRecordIs(env: Env, stored: Deployment, id: string, req: PatchRequest, all: seq<Deployment>, io: Io,
                      basicAuth: Option<seq<BasicAuthUser>>, volumes: Option<seq<string>>,
                      fileMounts: Option<seq<FileMount>>)
    requires req.ports.Some? ==> io.list
    ensures var (resp, p) := PatchRecord(env, stored, id, req, basicAuth, volumes, fileMounts, all, io);
            && (p.Some? <==> PatchRoutable(env, stored, id, req, all)) && (p.None? ==> !resp.Accepted?)
            && (p.Some? ==>
                  var given := if req.ports.Some?
                    then Some(AssignHostPorts(all, id, stored.ports, req.ports.value).value) else None;
                  && resp == Accepted(MergePatch(stored, p.value))
                  && p.value == Patch(req.image, req.envs, given, req.proxyPort, volumes, fileMounts, req.domain,
                                      req.isPublic, basicAuth, NormalizeSecurity(req.security), p.value.status, "", "")
                  && p.value.status ==
                       if PatchRequiresRedeploy(stored, req, given, volumes) then Some(Deploying) else None)
  {
    hide AssignHostPorts, ProxyPortAccepted, PrivateDomainAllowed, NormalizeSecurity, MergePatch, PatchRequiresRedeploy;
  }

  lemma MergeGives(env: Env, stored: Deployment, id: string, req: PatchRequest, p: Patch)
    requires p.image == req.image && p.envs == req.envs && p.proxyPort == req.proxyPort && p.domain == req.domain
    requires p.isPublic == req.isPublic && p.ports.Some? == req.ports.Some?
    requires p.ports.Some? ==> StoredPortsFor(req.ports.value, p.ports.value)
    requires p.fileMounts.Some? == req.fileMounts.Some?
    requires p.fileMounts.Some? ==> StoredFiles(req.fileMounts, p.fileMounts.value)
    requires StoredUsers(env, req.basicAuth, p.basicAuth) && StoredSecurity(req.security, p.security)
    requires req.volumeMounts.Some? ==> env.resolveVolumes(id, None, req.volumeMounts) == p.volumes && p.volumes.Some?
    requires req.volumeMounts.None? ==> p.volumes == req.volumes
    ensures Merges(env, stored, req, MergePatch(stored, p))
    ensures MergesVolumes(env, stored, id, req, MergePatch(stored, p))
  {
    hide StoredFiles, StoredUsers, StoredSecurity, StoredPortsFor;
    NothingStored(env, req.basicAuth, p.basicAuth, req.security, p.security);
  }

  lemma NothingStored(env: Env, users: Option<seq<BasicAuthUser>>, stored: Option<seq<BasicAuthUser>>,
                      security: Option<Security>, kept: Option<Security>)
    requires StoredUsers(env, users, stored) && StoredSecurity(security, kept)
    ensures stored.None? <==> users.None? || users.value == []
    ensures kept.None? <==> security.None?
  {
    hide StoredUser, TrimSpace;
  }

  lemma MergeRestarts(stored: Deployment, req: PatchRequest, p: Patch)
    requires p.image == req.image && p.envs == req.envs && p.proxyPort == req.proxyPort && p.reason == p.error == ""
    requires p.status == if PatchRequiresRedeploy(stored, req, p.ports, p.volumes) then Some(Deploying) else None
    ensures RestartedByPatch(stored, MergePatch(stored, p), req)
  {
    RepeatsExactly(stored, req.fileMounts, req.basicAuth);
    hide EqualFileMounts, EqualBasicAuth, RepeatsFiles, RepeatsUsers;
  }

  /** A patch that passes its checks replaces the stored record, and no other, by its merge with what
      the request gives. Any other patch leaves the store as it is. */
  lemma PatchMerges(env: Env, s: Deployments, id: string, req: PatchRequest, all: seq<Deployment>, io: Io)
    ensures var (after, resp) := HandlePatch(env, s, id, req, all, io);
            && (resp.Accepted? <==> PatchPasses(env, s, id, req, all, io) && io.write)
            && after == (if resp.Accepted? then s[id := resp.deployment] else s)
            && (resp.Accepted? ==>
                  && Merges(env, s[id], req, resp.deployment) && MergesVolumes(env, s[id], id, req, resp.deployment)
                  && RestartedByPatch(s[id], resp.deployment, req))
    ensures PatchAdmissible(env, id, req) && io.read && id !in s ==>
              HandlePatch(env, s, id, req, all, io) == (s, NotFoundResponse)
  {
    PatchInputs(env, id, req);
    hide Sanitize, PatchVolumes, PatchFileMounts, AssignHostPorts, NormalizeSecurity, DomainReserved, PatchRecord,
         PatchAdmissible, PatchRoutable, StoredFiles, StoredUsers, StoredSecurity, StoredPortsFor, Merges,
         MergesVolumes, RestartedByPatch, MergePatch, PatchRequiresRedeploy;
    if PatchAdmissible(env, id, req) && io.read && id in s {
      var basicAuth, volumes := Sanitize(env, req.basicAuth).value, PatchVolumes(env, id, req).value;
      var fileMounts := PatchFileMounts(env, id, req).value;
      if req.ports.None? || io.list {
        PatchRecordIs(env, s[id], id, req, all, io, basicAuth, volumes, fileMounts);
        var p := PatchRecord(env, s[id], id, req, basicAuth, volumes, fileMounts, all, io).1;
        if p.Some? {
          GivenPorts(env, s[id], id, req, all);
          MergeGives(env, s[id], id, req, p.value);
          MergeRestarts(s[id], req, p.value);
        }
      } else {
        UnlistedPatch(env, s[id], id, req, all, io, basicAuth, volumes, fileMounts);
      }
    }
  }

  lemma UnlistedPatch(env: Env, stored: Deployment, id: string, req: PatchRequest, all: seq<Deployment>, io: Io,
                      basicAuth: Option<seq<BasicAuthUser>>, volumes: Option<seq<string>>,
                      fileMounts: Option<seq<FileMount>>)
    requires req.ports.Some? && !io.list
    ensures var (resp, p) := PatchRecord(env, stored, id, req, basicAuth, volumes, fileMounts, all, io);
            p.None? && !resp.Accepted?
  {
    hide AssignHostPorts, ProxyPortAccepted, PrivateDomainAllowed, NormalizeSecurity, MergePatch, PatchRequiresRedeploy;
  }

  lemma GivenPorts(env: Env, stored: Deployment, id: string, req: PatchRequest, all: seq<Deployment>)
    requires PatchRoutable(env, stored, id, req, all)
    ensures req.ports.Some? ==>
              var given := AssignHostPorts(all, id, stored.ports, req.ports.value);
              given.Assigned? && StoredPortsFor(req.ports.value, given.value)
  {
    hide AssignHostPorts, ProxyPortAccepted, PrivateDomainAllowed, StoredPortsFor;
    if req.ports.Some? { PortsStored(all, id, stored.ports, req.ports.value); }
  }

  /** The conversions of a patch succeed exactly when it is admissible, and store what was given. */
  lemma PatchInputs(env: Env, id: string, req: PatchRequest)
    ensures PatchAdmissible(env, id, req) <==>
            && !(req.domain != "" && DomainReserved(env, req.domain)) && Sanitize(env, req.basicAuth).Some?
            && PatchFileMounts(env, id, req).Some? && PatchVolumes(env, id, req).Some?
    ensures PatchAdmissible(env, id, req) ==>
              var fileMounts, volumes := PatchFileMounts(env, id, req).value, PatchVolumes(env, id, req).value;
              && StoredUsers(env, req.basicAuth, Sanitize(env, req.basicAuth).value)
              && fileMounts.Some? == req.fileMounts.Some?
              && (fileMounts.Some? ==> StoredFiles(req.fileMounts, fileMounts.value))
              && (if req.volumeMounts.Some? then volumes.Some? &&
                  volumes == env.resolveVolumes(id, None, req.volumeMounts)
                  else volumes == req.volumes)
    ensures StoredSecurity(req.security, NormalizeSecurity(req.security))
  {
    SanitizeExactly(env, req.basicAuth);
    FilesStored(env, id, req.fileMounts);
    FilesAccepted(env, id, req.fileMounts);
    SecurityStored(req.security);
    assert req.fileMounts.None? ==> FilesFit(env, id, req.fileMounts);
    hide Sanitize, ResolveFileMounts, NormalizeSecurity, NormalizeDomain, StoredFiles, StoredUsers, StoredSecurity,
         UsersFit, FilesFit;
  }

  // ---------------------------------------------------------------- delete and status

  /** A delete removes exactly the named record, and a status report changes nothing but the status,
      reason and error of its record; a missing id is reported and nothing is changed. */
  lemma OthersStay(s: Deployments, id: string, status: Status, reason: string, error: string, io: Io)
    ensures var (after, resp) := HandleDelete(s, id, io);
            && (id in s && io.read && io.write ==> resp == Unchanged && id !in after)
            && (forall other :: other in after <==> other in s && (other != id || resp != Unchanged))
            && (forall other :: other in after ==> after[other] == s[other])
            && (resp == NotFoundResponse <==> io.read && id !in s)
    ensures var (after, resp) := HandleStatus(s, id, status, reason, error, io);
            && after.Keys == s.Keys && (resp.Accepted? <==> id in s && io.read && io.write)
            && (forall other :: other in after && other != id ==> after[other] == s[other])
            && (resp.Accepted? ==> after[id] == resp.deployment && after[id].status == status &&
                                   after[id].reason == reason && after[id].error == error &&
                                   s[id] == after[id].(status := s[id].status, reason := s[id].reason,
                                                       error := s[id].error))
            && (!resp.Accepted? ==> after == s)
  {
  }
}
