/** The deployment handlers of the API: create, update, patch, delete, restart and status, each
    from the store read to the store write. Handlers are serialised; `io` says which of a handler's
    calls succeed. Hashing, disk work and volume resolution are parameters of the environment. */
module Api {
  import opened Text
  import opened Paths
  import opened Ports
  import opened HostPorts
  import opened Store

  datatype VolumeMount = VolumeMount(mode: string, source: string, target: string,
                                     uid: Option<int>, gid: Option<int>, dirMode: string)

  datatype Request = Request(name: string, image: string, envs: Option<map<string, string>>, ports: seq<string>,
                             proxyPort: int, volumes: Option<seq<string>>, volumeMounts: Option<seq<VolumeMount>>,
                             fileMounts: Option<seq<FileMount>>, domain: string, isPublic: bool,
                             basicAuth: Option<seq<BasicAuthUser>>, security: Option<Security>)

  datatype PatchRequest = PatchRequest(image: string, envs: Option<map<string, string>>, ports: Option<seq<string>>,
                                       proxyPort: Option<int>, volumes: Option<seq<string>>,
                                       volumeMounts: Option<seq<VolumeMount>>, fileMounts: Option<seq<FileMount>>,
                                       domain: string, isPublic: Option<bool>,
                                       basicAuth: Option<seq<BasicAuthUser>>, security: Option<Security>)

  /** isHash is bcrypt.Cost succeeding, hash is bcrypt.GenerateFromPassword, and fileMountsOk stands
      for the size, settings and disk checks of resolveFileMounts. */
  datatype Env = Env(dashboardDomain: string, cookieDomain: string,
                     isHash: string -> bool, hash: string -> Option<string>,
                     resolveVolumes: (string, Option<seq<string>>, Option<seq<VolumeMount>>) -> Option<seq<string>>,
                     fileMountsOk: (string, seq<FileMount>) -> bool)

  ghost predicate HashesAreHashes(env: Env) {
    forall s: string :: env.hash(s).Some? ==> env.isHash(env.hash(s).value)
  }

  // ---------------------------------------------------------------- request conversion

  predicate DomainReserved(env: Env, domain: string) {
    env.dashboardDomain != "" && NormalizeDomain(domain) == env.dashboardDomain
  }

  predicate PrivateDomainAllowed(env: Env, domain: string) {
    var d := NormalizeDomain(domain);
    env.cookieDomain == "" || (d != "" && (d == env.cookieDomain || HasSuffix(d, "." + env.cookieDomain)))
  }

  function HashPassword(env: Env, password: string): Option<string> {
    if env.isHash(password) then Some(password) else env.hash(password)
  }

  /** sanitizeAndHashBasicAuth on the users of a request; None is a rejected request. */
  function SanitizeUsers(env: Env, users: seq<BasicAuthUser>): Option<seq<BasicAuthUser>> {
    if users == [] then Some([])
    else
      var username, password := TrimSpace(users[0].username), TrimSpace(users[0].password);
      if username == "" || password == "" then None
      else
        match (HashPassword(env, password), SanitizeUsers(env, users[1..]))
        case (Some(hashed), Some(rest)) => Some([BasicAuthUser(username, hashed)] + rest)
        case _ => None
  }

  function Sanitize(env: Env, basicAuth: Option<seq<BasicAuthUser>>): Option<Option<seq<BasicAuthUser>>> {
    if basicAuth.None? || basicAuth.value == [] then Some(None)
    else
      match SanitizeUsers(env, basicAuth.value)
      case Some(users) => Some(Some(users))
      case None => None
  }

  function CleanFileMount(m: FileMount): FileMount {
    FileMount(TrimSpace(m.source), Clean(TrimSpace(m.target)), m.content, m.uid, m.gid, TrimSpace(m.fileMode),
              m.readOnly)
  }

  function CleanFileMounts(ms: seq<FileMount>): (r: seq<FileMount>)
    ensures |r| == |ms| && forall i :: 0 <= i < |ms| ==> r[i] == CleanFileMount(ms[i])
  {
    seq(|ms|, i requires 0 <= i < |ms| => CleanFileMount(ms[i]))
  }

  predicate FileMountsAccepted(ms: seq<FileMount>) {
    && (forall i :: 0 <= i < |ms| ==> ManagedName(ms[i].source) && IsAbs(ms[i].target))
    && (forall i, j :: 0 <= i < j < |ms| ==> ms[i].source != ms[j].source && ms[i].target != ms[j].target)
  }

  /** resolveFileMounts */
  function ResolveFileMounts(env: Env, id: string, mounts: Option<seq<FileMount>>): Option<seq<FileMount>> {
    if mounts.None? then Some([])
    else if FileMountsAccepted(CleanFileMounts(mounts.value)) && env.fileMountsOk(id, mounts.value)
    then Some(CleanFileMounts(mounts.value))
    else None
  }

  function NormalizeSecurity(security: Option<Security>): Option<Security> {
    if security.None? then None
    else
      var mode := ToLower(TrimSpace(security.value.wafMode));
      Some(security.value.(wafMode := if mode == "enforcement" then mode else "detection"))
  }

  // ---------------------------------------------------------------- comparison with the stored record

  predicate SameFileMount(stored: FileMount, request: FileMount) {
    && stored.source == TrimSpace(request.source) && stored.target == TrimSpace(request.target)
    && stored.content == request.content && stored.readOnly == request.readOnly
    && stored.fileMode == TrimSpace(request.fileMode)
    && stored.uid == request.uid && stored.gid == request.gid
  }

  /** equalFileMounts */
  predicate EqualFileMounts(stored: seq<FileMount>, request: Option<seq<FileMount>>) {
    var r := if request.Some? then request.value else [];
    |stored| == |r| && forall i :: 0 <= i < |r| ==> SameFileMount(stored[i], r[i])
  }

  predicate SameUser(stored: BasicAuthUser, request: BasicAuthUser) {
    stored.username == TrimSpace(request.username) && stored.password == TrimSpace(request.password)
  }

  /** equalBasicAuthConfig */
  predicate EqualBasicAuth(stored: Option<seq<BasicAuthUser>>, request: Option<seq<BasicAuthUser>>) {
    if request.None? then stored.None?
    else stored.Some? && |stored.value| == |request.value| &&
         forall i :: 0 <= i < |request.value| ==> SameUser(stored.value[i], request.value[i])
  }

  /** updateRequiresRedeploy, on a body whose ports and volumes have been resolved. */
  predicate UpdateRequiresRedeploy(d: Deployment, req: Request, envs: map<string, string>, ports: seq<string>,
                                   volumes: seq<string>)
  {
    || d.image != req.image || d.envs != envs || d.ports != ports || d.proxyPort != req.proxyPort
    || d.volumes != volumes || !EqualFileMounts(d.fileMounts, req.fileMounts)
    || !EqualBasicAuth(d.basicAuth, req.basicAuth)
  }

  /** patchRequiresRedeploy, on a body whose ports and volumes have been resolved. */
  predicate PatchRequiresRedeploy(d: Deployment, req: PatchRequest, ports: Option<seq<string>>,
                                  volumes: Option<seq<string>>)
  {
    || (req.image != "" && d.image != req.image)
    || (req.envs.Some? && d.envs != req.envs.value)
    || (ports.Some? && d.ports != ports.value)
    || (req.proxyPort.Some? && d.proxyPort != req.proxyPort.value)
    || (volumes.Some? && d.volumes != volumes.value)
    || (req.fileMounts.Some? && !EqualFileMounts(d.fileMounts, req.fileMounts))
    || (req.basicAuth.Some? && !EqualBasicAuth(d.basicAuth, req.basicAuth))
  }

  /** updateRequestMatchesExisting */
  predicate MatchesExisting(d: Deployment, req: Request, envs: map<string, string>, ports: seq<string>,
                            volumes: seq<string>, basicAuth: Option<seq<BasicAuthUser>>, security: Option<Security>)
  {
    && d.name == req.name && d.image == req.image && d.envs == envs && d.ports == ports
    && d.proxyPort == req.proxyPort && d.volumes == volumes && EqualFileMounts(d.fileMounts, req.fileMounts)
    && d.domain == req.domain && d.isPublic == req.isPublic && d.basicAuth == basicAuth
    && NormalizeSecurity(d.security) == security
  }

  // ---------------------------------------------------------------- handlers as state functions

  /** Which of a handler's calls succeed: drawing an id, reading one record or the store before a
      write, listing the store, and persisting. */
  datatype Io = Io(draw: bool, read: bool, list: bool, write: bool)

  type Deployments = map<string, Deployment>

  /** A listing of the store, in some order. */
  ghost predicate Lists(all: seq<Deployment>, s: Deployments) {
    && (forall i :: 0 <= i < |all| ==> all[i].id in s && s[all[i].id] == all[i])
    && (forall id :: id in s ==> s[id] in all)
  }

  datatype Response = Accepted(deployment: Deployment) | Unchanged | BadRequest | NotFoundResponse | ConflictResponse
                    | Unavailable | ServerError

  function AssignResponse(e: AssignError): Response {
    match e
    case HostPortConflict(_, _) => ConflictResponse
    case NoHostPorts => Unavailable
    case Malformed => BadRequest
  }

  /** The record a create request asks for, once its ports are assigned. */
  function CreateRecord(env: Env, id: string, req: Request, all: seq<Deployment>, io: Io)
    : (r: (Response, Option<Deployment>))
  {
    if req.name == "" || req.image == "" then (BadRequest, None)
    else if DomainReserved(env, req.domain) then (ConflictResponse, None)
    else if !req.isPublic && !PrivateDomainAllowed(env, req.domain) then (BadRequest, None)
    else
      match (Sanitize(env, req.basicAuth), env.resolveVolumes(id, req.volumes, req.volumeMounts),
             ResolveFileMounts(env, id, req.fileMounts))
      case (None, _, _) => (BadRequest, None)
      case (Some(basicAuth), Some(volumes), Some(fileMounts)) => (
        if !io.draw || !io.list then (ServerError, None) else
        match AssignHostPorts(all, "", [], req.ports)
        case Rejected(e) => (AssignResponse(e), None)
        case Assigned(ports) =>
          if !ProxyPortAccepted(req.domain, req.proxyPort, ports) then (BadRequest, None)
          else
            var d := Deployment(id, req.name, req.image, if req.envs.Some? then req.envs.value else map[], ports,
                                req.proxyPort, volumes, fileMounts, req.domain, req.isPublic, basicAuth,
                                NormalizeSecurity(req.security), Deploying, "", "");
            (Accepted(d), Some(d)))
      case _ => (if io.draw then BadRequest else ServerError, None)
  }

  function HandleCreate(env: Env, s: Deployments, id: string, req: Request, all: seq<Deployment>, io: Io)
    : (Deployments, Response)
  {
    var (resp, d) := CreateRecord(env, id, req, all, io);
    if d.None? then (s, resp)
    else
      match Created(State(s, []), d.value, io.write)
      case (_, Err(DuplicateName)) => (s, ConflictResponse)
      case (_, Err(_)) => (s, ServerError)
      case (after, Ok(_)) => (after.deployments, resp)
  }

  /** The record an update request asks for; Unchanged when it asks for what is stored. */
  function UpdateRecord(env: Env, existing: Deployment, id: string, req: Request, basicAuth: Option<seq<BasicAuthUser>>,
                        volumes: seq<string>, fileMounts: seq<FileMount>, all: seq<Deployment>)
    : (r: (Response, Option<Deployment>))
  {
    match AssignHostPorts(all, id, existing.ports, req.ports)
    case Rejected(e) => (AssignResponse(e), None)
    case Assigned(ports) =>
      var envs := if req.envs.Some? then req.envs.value else map[];
      var security := NormalizeSecurity(req.security);
      if !ProxyPortAccepted(req.domain, req.proxyPort, ports) then (BadRequest, None)
      else if MatchesExisting(existing, req, envs, ports, volumes, basicAuth, security) then (Unchanged, None)
      else
        var redeploy := UpdateRequiresRedeploy(existing, req, envs, ports, volumes);
        var status := if redeploy then Deploying else existing.status;
        var d := Deployment(id, req.name, req.image, envs, ports, req.proxyPort, volumes, fileMounts, req.domain,
                            req.isPublic, basicAuth, security, status, "", "");
        (Accepted(d), Some(d))
  }

  function HandleUpdate(env: Env, s: Deployments, id: string, req: Request, all: seq<Deployment>, io: Io)
    : (Deployments, Response)
  {
    if req.name == "" || req.image == "" then (s, BadRequest)
    else if DomainReserved(env, req.domain) then (s, ConflictResponse)
    else if !req.isPublic && !PrivateDomainAllowed(env, req.domain) then (s, BadRequest)
    else
      match (Sanitize(env, req.basicAuth), env.resolveVolumes(id, req.volumes, req.volumeMounts),
             ResolveFileMounts(env, id, req.fileMounts))
      case (Some(basicAuth), Some(volumes), Some(fileMounts)) =>
        if !io.read then (s, ServerError)
        else if id !in s then (s, NotFoundResponse)
        else if !io.list then (s, ServerError)
        else
          var (resp, d) := UpdateRecord(env, s[id], id, req, basicAuth, volumes, fileMounts, all);
          if d.None? then (s, resp)
          else if !io.write then (s, ServerError)
          else (s[id := d.value], resp)
      case _ => (s, BadRequest)
  }

  /** The store patch a patch request asks for. */
  function PatchRecord(env: Env, existing: Deployment, id: string, req: PatchRequest,
                       basicAuth: Option<seq<BasicAuthUser>>,
                       volumes: Option<seq<string>>, fileMounts: Option<seq<FileMount>>, all: seq<Deployment>, io: Io)
    : (r: (Response, Option<Patch>))
  {
    var domain := if req.domain != "" then req.domain else existing.domain;
    var isPublic := if req.isPublic.Some? then req.isPublic.value else existing.isPublic;
    var proxyPort := if req.proxyPort.Some? then req.proxyPort.value else existing.proxyPort;
    if !isPublic && !PrivateDomainAllowed(env, domain) then (BadRequest, None)
    else if req.ports.Some? && !io.list then (ServerError, None)
    else
      match (if req.ports.Some? then AssignHostPorts(all, id, existing.ports, req.ports.value)
             else Assigned(existing.ports))
      case Rejected(e) => (AssignResponse(e), None)
      case Assigned(given) =>
        var ports := if req.ports.Some? then Some(given) else None;
        if !ProxyPortAccepted(domain, proxyPort, given) then (BadRequest, None)
        else
          var status := if PatchRequiresRedeploy(existing, req, ports, volumes) then Some(Deploying) else None;
          var p := Patch(req.image, req.envs, ports, req.proxyPort, volumes, fileMounts, req.domain, req.isPublic,
                         basicAuth, NormalizeSecurity(req.security), status, "", "");
          (Accepted(MergePatch(existing, p)), Some(p))
  }

  function PatchVolumes(env: Env, id: string, req: PatchRequest): Option<Option<seq<string>>> {
    if req.volumeMounts.None? then Some(req.volumes)
    else
      match env.resolveVolumes(id, None, req.volumeMounts)
      case Some(v) => Some(Some(v))
      case None => None
  }

  function PatchFileMounts(env: Env, id: string, req: PatchRequest): Option<Option<seq<FileMount>>> {
    if req.fileMounts.None? then Some(None)
    else
      match ResolveFileMounts(env, id, req.fileMounts)
      case Some(ms) => Some(Some(ms))
      case None => None
  }

  function HandlePatch(env: Env, s: Deployments, id: string, req: PatchRequest, all: seq<Deployment>, io: Io)
    : (Deployments, Response)
  {
    if req.domain != "" && DomainReserved(env, req.domain) then (s, ConflictResponse)
    else
      match (PatchVolumes(env, id, req), PatchFileMounts(env, id, req), Sanitize(env, req.basicAuth))
      case (Some(volumes), Some(fileMounts), Some(basicAuth)) =>
        if !io.read then (s, ServerError)
        else if id !in s then (s, NotFoundResponse)
        else
          var (resp, p) := PatchRecord(env, s[id], id, req, basicAuth, volumes, fileMounts, all, io);
          if p.None? then (s, resp)
          else if !io.write then (s, ServerError)
          else (s[id := MergePatch(s[id], p.value)], resp)
      case _ => (s, BadRequest)
  }

  function HandleDelete(s: Deployments, id: string, io: Io): (Deployments, Response) {
    if !io.read then (s, ServerError)
    else if id !in s then (s, NotFoundResponse)
    else if !io.write then (s, ServerError) else (s - {id}, Unchanged)
  }

  /** restartDeployment and updateDeploymentStatus only set status, reason and error. */
  function HandleStatus(s: Deployments, id: string, status: Status, reason: string, error: string, io: Io)
    : (Deployments, Response)
  {
    if !io.read then (s, ServerError)
    else if id !in s then (s, NotFoundResponse)
    else if !io.write then (s, ServerError)
    else
      var d := s[id].(status := status, reason := reason, error := error);
      (s[id := d], Accepted(d))
  }

  // ---------------------------------------------------------------- the handlers

  /** The API process: the store contents and one method per handler. */
  class Server {
    const env: Env
    var deployments: Deployments

    constructor (env: Env)
      ensures this.env == env && deployments == map[]
    {
      this.env := env;
      deployments := map[];
    }

    method SanitizeAndHash(basicAuth: Option<seq<BasicAuthUser>>) returns (r: Option<Option<seq<BasicAuthUser>>>)
      ensures r == Sanitize(env, basicAuth)
    {
      hide TrimSpace;
      if basicAuth.None? || basicAuth.value == [] { return Some(None); }
      var input := basicAuth.value;
      var users: seq<BasicAuthUser> := [];
      assert input[0..] == input;
      SanitizedNone(SanitizeUsers(env, input));
      for i := 0 to |input|
        invariant SanitizeUsers(env, input) == Sanitized(users, SanitizeUsers(env, input[i..]))
      {
        assert input[i..][0] == input[i] && input[i..][1..] == input[i + 1..];
        var username, password := TrimSpace(input[i].username), TrimSpace(input[i].password);
        if username == "" || password == "" { return None; }
        if !env.isHash(password) {
          var hashed := env.hash(password);
          if hashed.None? { return None; }
          password := hashed.value;
        }
        SanitizedStep(users, BasicAuthUser(username, password), SanitizeUsers(env, input[i + 1..]));
        users := users + [BasicAuthUser(username, password)];
      }
      assert input[|input|..] == [] && users + [] == users;
      return Some(Some(users));
    }

    method CreateDeployment(id: string, req: Request, all: seq<Deployment>, io: Io) returns (resp: Response)
      requires Lists(all, deployments)
      modifies this
      ensures (deployments, resp) == HandleCreate(env, old(deployments), id, req, all, io)
    {
      hide Sanitize, ResolveFileMounts, AssignHostPorts, ProxyPortAccepted, DomainReserved, PrivateDomainAllowed,
           NormalizeSecurity;
      if req.name == "" || req.image == "" { return BadRequest; }
      if DomainReserved(env, req.domain) { return ConflictResponse; }
      if !req.isPublic && !PrivateDomainAllowed(env, req.domain) { return BadRequest; }
      var basicAuth := SanitizeAndHash(req.basicAuth);
      if basicAuth.None? { return BadRequest; }
      if !io.draw { return ServerError; }
      var volumes := env.resolveVolumes(id, req.volumes, req.volumeMounts);
      if volumes.None? { return BadRequest; }
      var fileMounts := ResolveFileMounts(env, id, req.fileMounts);
      if fileMounts.None? { return BadRequest; }
      if !io.list { return ServerError; }
      var given := RunAssignHostPorts(all, "", [], req.ports);
      if given.Rejected? { return AssignResponse(given.error); }
      var accepted := ValidateProxyPortSelection(req.domain, req.proxyPort, given.value);
      if !accepted { return BadRequest; }
      var d := Deployment(id, req.name, req.image, if req.envs.Some? then req.envs.value else map[], given.value,
                          req.proxyPort, volumes.value, fileMounts.value, req.domain, req.isPublic, basicAuth.value,
                          NormalizeSecurity(req.security), Deploying, "", "");
      var (after, r) := Created(State(deployments, []), d, io.write);
      match r
      case Err(DuplicateName) => return ConflictResponse;
      case Err(_) => return ServerError;
      case Ok(_) =>
        deployments := after.deployments;
        return Accepted(d);
    }

    method UpdateDeployment(id: string, req: Request, all: seq<Deployment>, io: Io) returns (resp: Response)
      requires Lists(all, deployments)
      modifies this
      ensures (deployments, resp) == HandleUpdate(env, old(deployments), id, req, all, io)
    {
      hide Sanitize, ResolveFileMounts, AssignHostPorts, ProxyPortAccepted, DomainReserved, PrivateDomainAllowed,
           NormalizeSecurity, MatchesExisting, UpdateRequiresRedeploy;
      if req.name == "" || req.image == "" { return BadRequest; }
      if DomainReserved(env, req.domain) { return ConflictResponse; }
      if !req.isPublic && !PrivateDomainAllowed(env, req.domain) { return BadRequest; }
      var basicAuth := SanitizeAndHash(req.basicAuth);
      if basicAuth.None? { return BadRequest; }
      var volumes := env.resolveVolumes(id, req.volumes, req.volumeMounts);
      if volumes.None? { return BadRequest; }
      var fileMounts := ResolveFileMounts(env, id, req.fileMounts);
      if fileMounts.None? { return BadRequest; }
      if !io.read { return ServerError; }
      if id !in deployments { return NotFoundResponse; }
      var existing := deployments[id];
      if !io.list { return ServerError; }
      var given := RunAssignHostPorts(all, id, existing.ports, req.ports);
      if given.Rejected? { return AssignResponse(given.error); }
      var ports := given.value;
      var accepted := ValidateProxyPortSelection(req.domain, req.proxyPort, ports);
      if !accepted { return BadRequest; }
      var envs := if req.envs.Some? then req.envs.value else map[];
      var security := NormalizeSecurity(req.security);
      if MatchesExisting(existing, req, envs, ports, volumes.value, basicAuth.value, security) { return Unchanged; }
      var status := existing.status;
      if UpdateRequiresRedeploy(existing, req, envs, ports, volumes.value) { status := Deploying; }
      var d := Deployment(id, req.name, req.image, envs, ports, req.proxyPort, volumes.value, fileMounts.value,
                          req.domain, req.isPublic, basicAuth.value, security, status, "", "");
      if !io.write { return ServerError; }
      deployments := deployments[id := d];
      return Accepted(d);
    }

    method PatchDeployment(id: string, req: PatchRequest, all: seq<Deployment>, io: Io) returns (resp: Response)
      requires Lists(all, deployments)
      modifies this
      ensures (deployments, resp) == HandlePatch(env, old(deployments), id, req, all, io)
    {
      hide Sanitize, PatchVolumes, PatchFileMounts, AssignHostPorts, ProxyPortAccepted, DomainReserved,
           PrivateDomainAllowed, NormalizeSecurity, PatchRequiresRedeploy, MergePatch;
      if req.domain != "" && DomainReserved(env, req.domain) { return ConflictResponse; }
      var volumes := PatchVolumes(env, id, req);
      if volumes.None? { return BadRequest; }
      var fileMounts := PatchFileMounts(env, id, req);
      if fileMounts.None? { return BadRequest; }
      var basicAuth := SanitizeAndHash(req.basicAuth);
      if basicAuth.None? { return BadRequest; }
      if !io.read { return ServerError; }
      if id !in deployments { return NotFoundResponse; }
      var existing := deployments[id];
      var domain := if req.domain != "" then req.domain else existing.domain;
      var isPublic := if req.isPublic.Some? then req.isPublic.value else existing.isPublic;
      var proxyPort := if req.proxyPort.Some? then req.proxyPort.value else existing.proxyPort;
      if !isPublic && !PrivateDomainAllowed(env, domain) { return BadRequest; }
      var effective, ports := existing.ports, None;
      if req.ports.Some? {
        if !io.list { return ServerError; }
        var given := RunAssignHostPorts(all, id, existing.ports, req.ports.value);
        if given.Rejected? { return AssignResponse(given.error); }
        effective, ports := given.value, Some(given.value);
      }
      var accepted := ValidateProxyPortSelection(domain, proxyPort, effective);
      if !accepted { return BadRequest; }
      var status: Option<Status> := None;
      if PatchRequiresRedeploy(existing, req, ports, volumes.value) { status := Some(Deploying); }
      var p := Patch(req.image, req.envs, ports, req.proxyPort, volumes.value, fileMounts.value, req.domain,
                     req.isPublic, basicAuth.value, NormalizeSecurity(req.security), status, "", "");
      if !io.write { return ServerError; }
      var d := MergePatch(existing, p);
      deployments := deployments[id := d];
      return Accepted(d);
    }

    method DeleteDeployment(id: string, io: Io) returns (resp: Response)
      modifies this
      ensures (deployments, resp) == HandleDelete(old(deployments), id, io)
    {
      if !io.read { return ServerError; }
      if id !in deployments { return NotFoundResponse; }
      if !io.write { return ServerError; }
      deployments := deployments - {id};
      return Unchanged;
    }
  }

  ghost function Sanitized(done: seq<BasicAuthUser>, rest: Option<seq<BasicAuthUser>>): Option<seq<BasicAuthUser>> {
    if rest.Some? then Some(done + rest.value) else None
  }

  lemma SanitizedNone(rest: Option<seq<BasicAuthUser>>)
    ensures Sanitized([], rest) == rest
  {
    if rest.Some? { assert [] + rest.value == rest.value; }
  }

  lemma SanitizedStep(done: seq<BasicAuthUser>, u: BasicAuthUser, rest: Option<seq<BasicAuthUser>>)
    ensures Sanitized(done, Sanitized([u], rest)) == Sanitized(done + [u], rest)
  {
    if rest.Some? { assert done + ([u] + rest.value) == (done + [u]) + rest.value; }
  }
}
