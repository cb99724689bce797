/** The declarative config document (api/internal/configv1/config.go): types, validation and
    canonical order. net.ParseCIDR/ParseIP is the parameter `ip`; metadata is not modelled. */
module ConfigV1 {
  import opened Text
  import opened Paths
  import opened Ports
  import opened Ordering
  import Store

  type FileMount = Store.FileMount
  type User = Store.BasicAuthUser
  type Security = Store.Security

  datatype VolumeMount = VolumeMount(mode: string, source: string, target: string,
                                     uid: Option<int>, gid: Option<int>, dirMode: string)

  datatype Deployment = Deployment(name: string, image: string, domain: string, isPublic: Option<bool>,
                                   env: map<string, string>, ports: seq<string>, proxyPort: Option<int>,
                                   volumeMounts: seq<VolumeMount>, fileMounts: seq<FileMount>,
                                   basicAuth: Option<seq<User>>, security: Option<Security>)

  datatype Registry = Registry(prefix: string, username: string, password: string)

  datatype Waf = Waf(mode: string, ipAllowlist: seq<string>, customRules: seq<string>)

  datatype Host = Host(displayName: string, accessMode: string, waf: Option<Waf>)

  datatype Spec = Spec(deployments: seq<Deployment>, registries: seq<Registry>, host: Option<Host>)

  datatype Document = Document(apiVersion: string, kind: string, spec: Option<Spec>)

  const API_VERSION := "lotsen/v1"
  const KIND := "LotsenConfig"

  // ---------------------------------------------------------------- patterns

  const SECRET_PREFIX := "${LOTSEN_SECRET_"

  predicate SecretChar(c: char) { 'A' <= c <= 'Z' || '0' <= c <= '9' || c == '_' }

  /** placeholderPattern */
  predicate PlaceholderText(s: string) {
    && |s| > |SECRET_PREFIX| + 1 && HasPrefix(s, SECRET_PREFIX) && s[|s| - 1] == '}'
    && forall i :: |SECRET_PREFIX| <= i < |s| - 1 ==> SecretChar(s[i])
  }

  predicate IsPlaceholder(s: string) { PlaceholderText(TrimSpace(s)) }

  /** looksSensitiveEnvKey, identical in the validator, the planner and the exporter. */
  predicate Sensitive(key: string) {
    var k := ToUpper(TrimSpace(key));
    k != "" &&
    (Contains(k, "SECRET") || Contains(k, "TOKEN") || Contains(k, "PASSWORD") || Contains(k, "DATABASE_URL") ||
     Contains(k, "PRIVATE_KEY") || Contains(k, "API_KEY") || Contains(k, "ACCESS_KEY") || Contains(k, "_KEY") ||
     Contains(k, "KEY_") || HasSuffix(k, "KEY"))
  }

  /** dirModePattern */
  predicate OctalMode(s: string) { |s| == 4 && forall i :: 0 <= i < 4 ==> '0' <= s[i] <= '7' }

  predicate Blank(s: string) { TrimSpace(s) == "" }

  // ---------------------------------------------------------------- validity

  /** The checks on a volume mount, on its trimmed fields. */
  predicate MountRules(mode: string, source: string, target: string, uid: Option<int>, gid: Option<int>,
                       dirMode: string)
  {
    && source != "" && IsAbs(Clean(target)) && (mode == "managed" || mode == "bind")
    && (mode == "managed" ==> ManagedName(source) && NonNegative(uid) && NonNegative(gid) &&
                              (dirMode == "" || OctalMode(TrimSpace(dirMode))))
    && (mode == "bind" ==> IsAbs(Clean(source)) && uid.None? && gid.None? && Blank(dirMode))
  }

  predicate ValidMount(m: VolumeMount) {
    MountRules(ToLower(TrimSpace(m.mode)), TrimSpace(m.source), TrimSpace(m.target), m.uid, m.gid, m.dirMode)
  }

  predicate NonNegative(n: Option<int>) { n.Some? ==> n.value >= 0 }

  predicate ValidFileMount(m: FileMount) {
    && ManagedName(TrimSpace(m.source)) && IsAbs(Clean(TrimSpace(m.target)))
    && NonNegative(m.uid) && NonNegative(m.gid) && (m.fileMode == "" || OctalMode(TrimSpace(m.fileMode)))
  }

  predicate ValidFileMounts(ms: seq<FileMount>) {
    && (forall i :: 0 <= i < |ms| ==> ValidFileMount(ms[i]))
    && (forall i, j :: 0 <= i < j < |ms| ==>
          TrimSpace(ms[i].source) != TrimSpace(ms[j].source) &&
          Clean(TrimSpace(ms[i].target)) != Clean(TrimSpace(ms[j].target)))
  }

  predicate ValidUsers(users: seq<User>) {
    && users != [] && DistinctUsernames(users)
    && forall i :: 0 <= i < |users| ==> !Blank(users[i].username) && IsPlaceholder(users[i].password)
  }

  predicate DistinctUsernames(users: seq<User>) {
    forall i, j :: 0 <= i < j < |users| ==> users[i].username != users[j].username
  }

  predicate ValidAddress(ip: string -> bool, s: string) { !Blank(s) && ip(TrimSpace(s)) }

  predicate ValidAddresses(ip: string -> bool, list: seq<string>) {
    forall i :: 0 <= i < |list| ==> ValidAddress(ip, list[i])
  }

  predicate ValidWafMode(s: string) {
    s == "" || (var mode := ToLower(TrimSpace(s)); mode == "detection" || mode == "enforcement")
  }

  predicate ValidSecurity(ip: string -> bool, s: Security) {
    ValidWafMode(s.wafMode) && ValidAddresses(ip, s.ipDenylist) && ValidAddresses(ip, s.ipAllowlist)
  }

  predicate ServesTcp(port: string, n: int) {
    var p := ParseConfig(port);
    p.Some? && p.value.protocol.Tcp? && p.value.containerPort == n
  }

  predicate ValidPorts(ports: seq<string>, proxyPort: Option<int>) {
    && (forall i :: 0 <= i < |ports| ==> ParseConfig(ports[i]).Some?)
    && (proxyPort.Some? ==> ValidPort(proxyPort.value))
    && (proxyPort.Some? ==> exists i :: 0 <= i < |ports| && ServesTcp(ports[i], proxyPort.value))
  }

  predicate ValidEnv(env: map<string, string>) {
    forall k :: k in env ==> !Blank(k) && (Sensitive(k) ==> IsPlaceholder(env[k]))
  }

  /** The checks of Validate on one deployment; name uniqueness is separate. */
  predicate ValidDeployment(ip: string -> bool, d: Deployment) {
    && !Blank(d.name) && !Blank(d.image) && !Blank(d.domain) && d.isPublic.Some?
    && ValidPorts(d.ports, d.proxyPort) && ValidEnv(d.env)
    && (forall i :: 0 <= i < |d.volumeMounts| ==> ValidMount(d.volumeMounts[i]))
    && ValidFileMounts(d.fileMounts)
    && (d.basicAuth.Some? ==> ValidUsers(d.basicAuth.value))
    && (d.security.Some? ==> ValidSecurity(ip, d.security.value))
  }

  predicate ValidRegistry(r: Registry) { !Blank(r.prefix) && !Blank(r.username) && IsPlaceholder(r.password) }

  predicate ValidAccessMode(s: string) {
    s == "" ||
    (var mode := ToLower(TrimSpace(s)); mode == "login_only" || mode == "waf_only" || mode == "waf_and_login")
  }

  predicate ValidHost(ip: string -> bool, h: Host) {
    && ValidAccessMode(h.accessMode)
    && (h.waf.Some? ==> ValidWafMode(h.waf.value.mode) && ValidAddresses(ip, h.waf.value.ipAllowlist))
  }

  predicate DistinctNames(ds: seq<Deployment>) {
    forall i, j :: 0 <= i < j < |ds| ==> ds[i].name != ds[j].name
  }

  predicate DistinctPrefixes(rs: seq<Registry>) {
    forall i, j :: 0 <= i < j < |rs| ==> rs[i].prefix != rs[j].prefix
  }

  predicate ValidSpec(ip: string -> bool, s: Spec) {
    && (forall i :: 0 <= i < |s.deployments| ==> ValidDeployment(ip, s.deployments[i])) && DistinctNames(s.deployments)
    && (forall i :: 0 <= i < |s.registries| ==> ValidRegistry(s.registries[i])) && DistinctPrefixes(s.registries)
    && (s.host.Some? ==> ValidHost(ip, s.host.value))
  }

  predicate ValidDocument(ip: string -> bool, doc: Document) {
    doc.apiVersion == API_VERSION && doc.kind == KIND && doc.spec.Some? && ValidSpec(ip, doc.spec.value)
  }

  // ---------------------------------------------------------------- the loops of Validate

  /** Validate: the number of error messages, counted in the order of the source's checks. */
  method Validate(ip: string -> bool, doc: Document) returns (errors: nat)
    ensures errors == 0 <==> ValidDocument(ip, doc)
  {
    hide ValidDeployment, ValidRegistry, ValidHost, Blank;
    errors := 0;
    if doc.apiVersion != API_VERSION { errors := errors + 1; }
    if doc.kind != KIND { errors := errors + 1; }
    if doc.spec.None? { return errors + 1; }
    var spec := doc.spec.value;
    var d := ValidateDeployments(ip, spec.deployments);
    var r := ValidateRegistries(spec.registries);
    errors := errors + d + r;
    if spec.host.Some? {
      var h := ValidateHost(ip, spec.host.value);
      errors := errors + h;
    }
  }

  /** A blank name is an error of its own and is not remembered. */
  method ValidateDeployments(ip: string -> bool, ds: seq<Deployment>) returns (errors: nat)
    ensures errors == 0 <==> (forall i :: 0 <= i < |ds| ==> ValidDeployment(ip, ds[i])) && DistinctNames(ds)
  {
    NamesAreNotBlank(ip);
    hide ValidDeployment, Blank;
    errors := 0;
    var names: set<string> := {};
    for i := 0 to |ds|
      invariant errors == 0 <==> (forall j :: 0 <= j < i ==> ValidDeployment(ip, ds[j])) && DistinctNames(ds[..i])
      invariant names == set j | 0 <= j < i && !Blank(ds[j].name) :: ds[j].name
    {
      var unique := Blank(ds[i].name) || ds[i].name !in names;
      if !Blank(ds[i].name) { names := names + {ds[i].name}; }
      if !unique { errors := errors + 1; }
      var d := ValidateDeployment(ip, ds[i]);
      errors := errors + d;
      assert forall j :: 0 <= j < i ==> ds[..i][j] == ds[j];
      assert forall j :: 0 <= j < i + 1 ==> ds[..i + 1][j] == ds[j];
    }
    assert ds[..|ds|] == ds;
  }

  lemma NamesAreNotBlank(ip: string -> bool)
    ensures forall d :: ValidDeployment(ip, d) ==> !Blank(d.name)
  {
  }

  /** The checks on one deployment but the uniqueness of its name. */
  method ValidateDeployment(ip: string -> bool, d: Deployment) returns (errors: nat)
    ensures errors == 0 <==> ValidDeployment(ip, d)
  {
    hide Blank, ValidPorts, ValidEnv, ValidMount, ValidFileMounts, ValidUsers, ValidSecurity;
    errors := 0;
    if Blank(d.name) { errors := errors + 1; }
    if Blank(d.image) { errors := errors + 1; }
    if Blank(d.domain) { errors := errors + 1; }
    if d.isPublic.None? { errors := errors + 1; }
    var ports := ValidatePorts(d.ports, d.proxyPort);
    var env := ValidateEnv(d.env);
    var mounts := ValidateMounts(d.volumeMounts);
    var files := ValidateFileMounts(d.fileMounts);
    errors := errors + ports + env + mounts + files;
    if d.basicAuth.Some? {
      var users := ValidateUsers(d.basicAuth.value);
      errors := errors + users;
    }
    if d.security.Some? {
      var security := ValidateSecurity(ip, d.security.value);
      errors := errors + security;
    }
  }

  /** The container ports of the TCP mappings that parse; an invalid mapping is not remembered. */
  method ValidatePorts(ports: seq<string>, proxyPort: Option<int>) returns (errors: nat)
    ensures errors == 0 <==> ValidPorts(ports, proxyPort)
  {
    hide ParseConfig;
    errors := 0;
    var tcp: set<int> := {};
    for i := 0 to |ports|
      invariant errors == 0 <==> forall j :: 0 <= j < i ==> ParseConfig(ports[j]).Some?
      invariant forall n :: n in tcp <==> exists j :: 0 <= j < i && ServesTcp(ports[j], n)
    {
      var spec := ParseConfig(ports[i]);
      if spec.None? {
        errors := errors + 1;
        continue;
      }
      if spec.value.protocol.Tcp? {
        assert ServesTcp(ports[i], spec.value.containerPort);
        tcp := tcp + {spec.value.containerPort};
      }
    }
    if proxyPort.Some? {
      if proxyPort.value < 1 || proxyPort.value > MAX_PORT {
        errors := errors + 1;
      } else if proxyPort.value !in tcp {
        errors := errors + 1;
      }
    }
  }

  method ValidateEnv(env: map<string, string>) returns (errors: nat)
    ensures errors == 0 <==> ValidEnv(env)
  {
    hide Blank, Sensitive, IsPlaceholder;
    errors := 0;
    var rest := env.Keys;
    while rest != {}
      invariant rest <= env.Keys
      invariant errors == 0 <==>
                  forall k :: k in env && k !in rest ==> !Blank(k) && (Sensitive(k) ==> IsPlaceholder(env[k]))
    {
      var key :| key in rest;
      rest := rest - {key};
      if Blank(key) {
        errors := errors + 1;
        continue;
      }
      if Sensitive(key) && !IsPlaceholder(env[key]) { errors := errors + 1; }
    }
  }

  method ValidateMounts(ms: seq<VolumeMount>) returns (errors: nat)
    ensures errors == 0 <==> forall i :: 0 <= i < |ms| ==> ValidMount(ms[i])
  {
    hide ValidMount;
    errors := 0;
    for i := 0 to |ms|
      invariant errors == 0 <==> forall j :: 0 <= j < i ==> ValidMount(ms[j])
    {
      var m := ValidateMount(ms[i]);
      errors := errors + m;
    }
  }

  method ValidateMount(m: VolumeMount) returns (errors: nat)
    ensures errors == 0 <==> ValidMount(m)
  {
    DotIsRelative();
    hide TrimSpace, ToLower, Clean, IsAbs, ManagedName, OctalMode;
    errors := 0;
    var mode, source, target := ToLower(TrimSpace(m.mode)), TrimSpace(m.source), Clean(TrimSpace(m.target));
    if mode != "managed" && mode != "bind" { errors := errors + 1; }
    if source == "" { errors := errors + 1; }
    if target == "." || !IsAbs(target) { errors := errors + 1; }
    if mode == "managed" {
      if !ManagedName(source) { errors := errors + 1; }
      if m.uid.Some? && m.uid.value < 0 { errors := errors + 1; }
      if m.gid.Some? && m.gid.value < 0 { errors := errors + 1; }
      if m.dirMode != "" && !OctalMode(TrimSpace(m.dirMode)) { errors := errors + 1; }
    }
    if mode == "bind" {
      if Clean(source) == "." || !IsAbs(Clean(source)) { errors := errors + 1; }
      if m.uid.Some? || m.gid.Some? || TrimSpace(m.dirMode) != "" { errors := errors + 1; }
    }
  }

  lemma DotIsRelative()
    ensures !IsAbs(".") && !ManagedName("")
  {
    assert "."[0] == '.';
  }

  /** Sources that are no file names and targets that are not absolute are errors of their own and
      are not remembered. */
  method ValidateFileMounts(ms: seq<FileMount>) returns (errors: nat)
    ensures errors == 0 <==> ValidFileMounts(ms)
  {
    DotIsRelative();
    hide TrimSpace, Clean, IsAbs, ManagedName, OctalMode;
    errors := 0;
    var sources: set<string>, targets: set<string> := {}, {};
    for i := 0 to |ms|
      invariant errors == 0 <==> ValidFileMounts(ms[..i])
      invariant sources == set j | 0 <= j < i && ManagedName(SourceOf(ms[j])) :: SourceOf(ms[j])
      invariant targets == set j | 0 <= j < i && IsAbs(TargetOf(ms[j])) :: TargetOf(ms[j])
    {
      OneMoreFileMount(ms, i);
      var m := ms[i];
      var source, target := TrimSpace(m.source), Clean(TrimSpace(m.target));
      if source == "" || !ManagedName(source) {
        errors := errors + 1;
      } else {
        if source in sources { errors := errors + 1; }
        sources := sources + {source};
      }
      if target == "." || !IsAbs(target) {
        errors := errors + 1;
      } else {
        if target in targets { errors := errors + 1; }
        targets := targets + {target};
      }
      if m.uid.Some? && m.uid.value < 0 { errors := errors + 1; }
      if m.gid.Some? && m.gid.value < 0 { errors := errors + 1; }
      if m.fileMode != "" && !OctalMode(TrimSpace(m.fileMode)) { errors := errors + 1; }
    }
    assert ms[..|ms|] == ms;
  }

  function SourceOf(m: FileMount): string { TrimSpace(m.source) }

  function TargetOf(m: FileMount): string { Clean(TrimSpace(m.target)) }

  /** The mount at i is valid and neither its source nor its target is one of an earlier mount. */
  predicate FitsFileMounts(ms: seq<FileMount>, i: int)
    requires 0 <= i < |ms|
  {
    ValidFileMount(ms[i]) &&
    forall j :: 0 <= j < i ==> SourceOf(ms[j]) != SourceOf(ms[i]) && TargetOf(ms[j]) != TargetOf(ms[i])
  }

  lemma OneMoreFileMount(ms: seq<FileMount>, i: int)
    requires 0 <= i < |ms|
    ensures ValidFileMounts(ms[..i + 1]) <==> ValidFileMounts(ms[..i]) && FitsFileMounts(ms, i)
  {
    hide TrimSpace, Clean, ValidFileMount;
    var before, after := ms[..i], ms[..i + 1];
    assert forall j :: 0 <= j < i ==> before[j] == ms[j] && after[j] == ms[j];
    assert after[i] == ms[i];
  }

  /** A blank username is an error of its own and is not remembered. */
  method ValidateUsers(users: seq<User>) returns (errors: nat)
    ensures errors == 0 <==> ValidUsers(users)
  {
    hide Blank, IsPlaceholder;
    errors := 0;
    if |users| == 0 { errors := errors + 1; }
    var usernames: set<string> := {};
    for i := 0 to |users|
      invariant errors == 0 <==> users != [] && DistinctUsernames(users[..i]) &&
                                 forall j :: 0 <= j < i ==>
                                   !Blank(users[j].username) && IsPlaceholder(users[j].password)
      invariant usernames == set j | 0 <= j < i && !Blank(users[j].username) :: users[j].username
    {
      assert forall j :: 0 <= j < i ==> users[..i][j] == users[j];
      assert forall j :: 0 <= j < i + 1 ==> users[..i + 1][j] == users[j];
      if Blank(users[i].username) {
        errors := errors + 1;
      } else {
        if users[i].username in usernames { errors := errors + 1; }
        usernames := usernames + {users[i].username};
      }
      if !IsPlaceholder(users[i].password) { errors := errors + 1; }
    }
    assert users[..|users|] == users;
  }

  method ValidateSecurity(ip: string -> bool, s: Security) returns (errors: nat)
    ensures errors == 0 <==> ValidSecurity(ip, s)
  {
    hide ValidAddress;
    errors := 0;
    if !ValidWafMode(s.wafMode) { errors := errors + 1; }
    var deny := ValidateAddresses(ip, s.ipDenylist);
    var allow := ValidateAddresses(ip, s.ipAllowlist);
    errors := errors + deny + allow;
  }

  method ValidateAddresses(ip: string -> bool, list: seq<string>) returns (errors: nat)
    ensures errors == 0 <==> ValidAddresses(ip, list)
  {
    hide ValidAddress;
    errors := 0;
    for i := 0 to |list|
      invariant errors == 0 <==> forall j :: 0 <= j < i ==> ValidAddress(ip, list[j])
    {
      if !ValidAddress(ip, list[i]) { errors := errors + 1; }
    }
  }

  /** A blank prefix is an error of its own and is not remembered. */
  method ValidateRegistries(rs: seq<Registry>) returns (errors: nat)
    ensures errors == 0 <==> (forall i :: 0 <= i < |rs| ==> ValidRegistry(rs[i])) && DistinctPrefixes(rs)
  {
    hide Blank, IsPlaceholder;
    errors := 0;
    var prefixes: set<string> := {};
    for i := 0 to |rs|
      invariant errors == 0 <==> (forall j :: 0 <= j < i ==> ValidRegistry(rs[j])) && DistinctPrefixes(rs[..i])
      invariant prefixes == set j | 0 <= j < i && !Blank(rs[j].prefix) :: rs[j].prefix
    {
      assert forall j :: 0 <= j < i ==> rs[..i][j] == rs[j];
      assert forall j :: 0 <= j < i + 1 ==> rs[..i + 1][j] == rs[j];
      if Blank(rs[i].prefix) {
        errors := errors + 1;
      } else {
        if rs[i].prefix in prefixes { errors := errors + 1; }
        prefixes := prefixes + {rs[i].prefix};
      }
      if Blank(rs[i].username) { errors := errors + 1; }
      if !IsPlaceholder(rs[i].password) { errors := errors + 1; }
    }
    assert rs[..|rs|] == rs;
  }

  method ValidateHost(ip: string -> bool, h: Host) returns (errors: nat)
    ensures errors == 0 <==> ValidHost(ip, h)
  {
    hide ValidAddress;
    errors := 0;
    if !ValidAccessMode(h.accessMode) { errors := errors + 1; }
    if h.waf.Some? {
      if !ValidWafMode(h.waf.value.mode) { errors := errors + 1; }
      var allow := ValidateAddresses(ip, h.waf.value.ipAllowlist);
      errors := errors + allow;
    }
  }

  // ---------------------------------------------------------------- canonical order

  function Username(u: User): string { u.username }

  function Name(d: Deployment): string { d.name }

  function Prefix(r: Registry): string { r.prefix }

  function CanonicalUsers(users: Option<seq<User>>): Option<seq<User>> {
    if users.Some? then Some(SortBy(Username, users.value)) else None
  }

  function CanonicalDeployment(d: Deployment): Deployment {
    d.(basicAuth := CanonicalUsers(d.basicAuth))
  }

  function CanonicalDeployments(ds: seq<Deployment>): (r: seq<Deployment>)
    ensures |r| == |ds| && forall i :: 0 <= i < |ds| ==> r[i] == CanonicalDeployment(ds[i])
  {
    seq(|ds|, i requires 0 <= i < |ds| => CanonicalDeployment(ds[i]))
  }

  /** Canonicalize */
  function Canonicalize(s: Spec): Spec {
    Spec(SortBy(Name, CanonicalDeployments(s.deployments)), SortBy(Prefix, s.registries), s.host)
  }
}
