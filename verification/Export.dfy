/** The exporter (api/cmd/lotsen/config.go): the live state written back as a config document, with
    secrets replaced by placeholders and managed volumes recognised by their directory. */
module Export {
  import opened Text
  import opened Paths
  import opened ConfigV1
  import Store

  // ---------------------------------------------------------------- placeholders

  predicate UpperAlnum(c: char) { 'A' <= c <= 'Z' || '0' <= c <= '9' }

  /** placeholderCleanupPattern.ReplaceAllString(s, "_"); inRun says a run of other characters is open. */
  function Collapse(s: string, inRun: bool): (r: string)
    ensures forall c :: c in r ==> SecretChar(c)
  {
    if s == "" then ""
    else if UpperAlnum(s[0]) then [s[0]] + Collapse(s[1..], false)
    else (if inRun then "" else "_") + Collapse(s[1..], true)
  }

  /** strings.Trim(s, "_") */
  function TrimUnderscores(s: string): (r: string)
    ensures forall c :: c in r ==> c in s
  {
    if s != "" && s[0] == '_' then TrimUnderscores(s[1..])
    else if s != "" && s[|s| - 1] == '_' then TrimUnderscores(s[..|s| - 1])
    else s
  }

  function PlaceholderFor(raw: string): string {
    var name := TrimUnderscores(Collapse(ToUpper(TrimSpace(raw)), false));
    SECRET_PREFIX + (if name == "" then "VALUE" else name) + "}"
  }

  /** Every generated placeholder has the placeholder form. */
  lemma PlaceholderForIsPlaceholder(raw: string)
    ensures IsPlaceholder(PlaceholderFor(raw))
  {
    hide TrimSpace, Collapse, TrimUnderscores, ToUpper;
    var name := TrimUnderscores(Collapse(ToUpper(TrimSpace(raw)), false));
    var body := if name == "" then "VALUE" else name;
    forall c | c in body ensures SecretChar(c) {}
    var s := PlaceholderFor(raw);
    assert s == SECRET_PREFIX + body + "}";
    forall i | |SECRET_PREFIX| <= i < |s| - 1 ensures SecretChar(s[i]) {
      assert s[i] == body[i - |SECRET_PREFIX|] && s[i] in body;
    }
    assert PlaceholderText(s);
    assert Trimmed(s);
  }

  // ---------------------------------------------------------------- volumes

  /** managedVolumeNameForDeployment, for the cleaned base directory. */
  function ManagedNameFor(base: string, id: string, source: string): Option<string> {
    if !IsAbs(base) then None
    else
      var prefix := JoinPath([Clean(base), id]) + "/";
      var clean := Clean(TrimSpace(source));
      if !HasPrefix(clean, prefix) then None
      else
        var name := clean[|prefix|..];
        if '/' in name || !ManagedName(name) then None else Some(name)
  }

  function ExportMount(base: string, id: string, binding: string): Option<VolumeMount> {
    var sep := IndexOf(binding, ':');
    if sep == |binding| || sep == 0 then None
    else
      var source, target := binding[..sep], binding[sep + 1..];
      match ManagedNameFor(base, id, source)
      case Some(name) => Some(VolumeMount("managed", name, target, None, None, ""))
      case None => Some(VolumeMount("bind", source, target, None, None, ""))
  }

  function ExportMounts(base: string, id: string, bindings: seq<string>): seq<VolumeMount> {
    if bindings == [] then []
    else
      var m := ExportMount(base, id, bindings[0]);
      (if m.Some? then [m.value] else []) + ExportMounts(base, id, bindings[1..])
  }

  // ---------------------------------------------------------------- records

  function ExportEnvValue(name: string, key: string, value: string): string {
    if Sensitive(key) && !IsPlaceholder(value) then PlaceholderFor("ENV_" + name + "_" + key) else value
  }

  function ExportEnv(name: string, env: map<string, string>): map<string, string> {
    map k | k in env :: ExportEnvValue(name, k, env[k])
  }

  function ExportUser(name: string, u: User): User {
    if IsPlaceholder(u.password) then u
    else Store.BasicAuthUser(u.username, PlaceholderFor("BASIC_AUTH_" + name + "_" + u.username))
  }

  function ExportUsers(name: string, users: seq<User>): (r: seq<User>)
    ensures |r| == |users| && forall i :: 0 <= i < |users| ==> r[i] == ExportUser(name, users[i])
  {
    seq(|users|, i requires 0 <= i < |users| => ExportUser(name, users[i]))
  }

  function ExportFileMount(m: FileMount): FileMount {
    Store.FileMount(TrimSpace(m.source), TrimSpace(m.target), m.content, m.uid, m.gid, TrimSpace(m.fileMode),
                    m.readOnly)
  }

  function ExportFileMounts(ms: seq<FileMount>): (r: seq<FileMount>)
    ensures |r| == |ms| && forall i :: 0 <= i < |ms| ==> r[i] == ExportFileMount(ms[i])
  {
    seq(|ms|, i requires 0 <= i < |ms| => ExportFileMount(ms[i]))
  }

  function ExportDeployment(base: string, d: Store.Deployment): Deployment {
    Deployment(d.name, d.image, d.domain, Some(d.isPublic), ExportEnv(d.name, d.envs), d.ports,
               if d.proxyPort > 0 then Some(d.proxyPort) else None,
               ExportMounts(base, d.id, d.volumes), ExportFileMounts(d.fileMounts),
               if d.basicAuth.Some? then Some(ExportUsers(d.name, d.basicAuth.value)) else None, d.security)
  }

  function ExportRegistry(r: Store.Registry): Registry {
    Registry(r.prefix, r.username, if IsPlaceholder(r.secret) then r.secret else PlaceholderFor("REGISTRY_" + r.prefix))
  }

  datatype HostProfile = HostProfile(displayName: string, accessMode: string, wafMode: string,
                                     ipAllowlist: seq<string>, customRules: seq<string>)

  function ExportHost(p: HostProfile): Host {
    Host(TrimSpace(p.displayName), TrimSpace(p.accessMode),
         if p.wafMode != "" || p.ipAllowlist != [] || p.customRules != []
         then Some(Waf(TrimSpace(p.wafMode), p.ipAllowlist, p.customRules)) else None)
  }

  /** The live state: the store and the host profile. */
  datatype World = World(store: Store.State, host: HostProfile)

  function ExportDeployments(base: string, s: Store.State, order: seq<string>): (r: seq<Deployment>)
    requires forall id :: id in order ==> id in s.deployments
    ensures |r| == |order| && forall i :: 0 <= i < |order| ==> r[i] == ExportDeployment(base, s.deployments[order[i]])
  {
    seq(|order|, i requires 0 <= i < |order| => ExportDeployment(base, s.deployments[order[i]]))
  }

  function ExportRegistries(rs: seq<Store.Registry>): (r: seq<Registry>)
    ensures |r| == |rs| && forall i :: 0 <= i < |rs| ==> r[i] == ExportRegistry(rs[i])
  {
    seq(|rs|, i requires 0 <= i < |rs| => ExportRegistry(rs[i]))
  }

  /** exportConfigDocument before its validation, listing the deployments in the given map order. */
  function ExportSpec(base: string, w: World, order: seq<string>): Spec
    requires forall id :: id in order ==> id in w.store.deployments
  {
    Spec(ExportDeployments(base, w.store, order), ExportRegistries(w.store.registries), Some(ExportHost(w.host)))
  }

  /** exportConfigDocument: the loops over the store, then Validate. */
  method ExportDocument(ip: string -> bool, base: string, w: World, order: seq<string>) returns (doc: Option<Document>)
    requires forall id :: id in order ==> id in w.store.deployments
    ensures doc.Some? <==> ValidSpec(ip, ExportSpec(base, w, order))
    ensures doc.Some? ==> doc.value == Document(API_VERSION, KIND, Some(ExportSpec(base, w, order)))
  {
    hide ExportDeployment, ExportRegistry, ExportHost, ValidSpec;
    var deployments: seq<Deployment>, registries: seq<Registry> := [], [];
    for i := 0 to |order|
      invariant deployments == ExportDeployments(base, w.store, order)[..i]
    {
      assert order[i] in order;
      deployments := deployments + [ExportDeployment(base, w.store.deployments[order[i]])];
    }
    for i := 0 to |w.store.registries|
      invariant registries == ExportRegistries(w.store.registries)[..i]
    {
      registries := registries + [ExportRegistry(w.store.registries[i])];
    }
    var d := Document(API_VERSION, KIND, Some(Spec(deployments, registries, Some(ExportHost(w.host)))));
    assert d.spec.value == ExportSpec(base, w, order);
    var errors := Validate(ip, d);
    if errors == 0 { return Some(d); }
    return None;
  }
}
