/** Field by field: what an apply writes for a desired deployment, and what an export shows of a
    stored one. */
module WrittenRecords {
  import opened Text
  import opened Paths
  import opened ConfigV1
  import opened Export
  import opened Apply
  import opened RoundTrip
  import Store

  // ---------------------------------------------------------------- what an apply writes

  predicate SameFile(d: FileMount, f: FileMount) {
    && f.source == TrimSpace(d.source) && f.target == TrimSpace(d.target) && f.content == d.content
    && f.uid == d.uid && f.gid == d.gid && f.fileMode == TrimSpace(d.fileMode) && f.readOnly == d.readOnly
  }

  /** The stored user: the trimmed name, and the password if it is a hash, else its hash. */
  predicate StoredUser(env: Env, d: User, u: User) {
    var password := TrimSpace(d.password);
    && u.username == TrimSpace(d.username)
    && (if env.isHash(password) then u.password == password else env.hash(password) == Some(u.password))
  }

  /** The binding of a mount: a managed volume lies below the deployment's directory. */
  predicate StoredMount(base: string, id: string, m: VolumeMount, binding: string) {
    var source, target := TrimSpace(m.source), TrimSpace(m.target);
    if ToLower(TrimSpace(m.mode)) == "managed" then binding == JoinPath([base, id, source]) + ":" + target
    else ToLower(TrimSpace(m.mode)) == "bind" && binding == source + ":" + target
  }

  lemma {:induction false} StoredUsers(env: Env, users: seq<User>)
    requires HashUsers(env, users).Some?
    ensures var stored := HashUsers(env, users).value;
            |stored| == |users| && forall i :: 0 <= i < |users| ==> StoredUser(env, users[i], stored[i])
  {
    hide TrimSpace;
    if users != [] {
      StoredUsers(env, users[1..]);
      var rest := HashUsers(env, users[1..]).value;
      forall i | 0 <= i < |users| ensures StoredUser(env, users[i], HashUsers(env, users).value[i]) {
        if i > 0 { assert StoredUser(env, users[1..][i - 1], rest[i - 1]); }
      }
    }
  }

  lemma {:induction false} StoredMounts(base: string, id: string, ms: seq<VolumeMount>)
    requires BindingsOf(base, id, ms).Some?
    ensures var stored := BindingsOf(base, id, ms).value;
            |stored| == |ms| && forall i :: 0 <= i < |ms| ==> StoredMount(base, id, ms[i], stored[i])
  {
    hide TrimSpace, ToLower, JoinPath;
    if ms != [] {
      StoredMounts(base, id, ms[1..]);
      var rest := BindingsOf(base, id, ms[1..]).value;
      forall i | 0 <= i < |ms| ensures StoredMount(base, id, ms[i], BindingsOf(base, id, ms).value[i]) {
        if i > 0 { assert StoredMount(base, id, ms[1..][i - 1], rest[i - 1]); }
      }
    }
  }

  /** A record that an apply wrote carries every field of the desired deployment. */
  lemma WrittenFields(env: Env, d: Deployment, r: Store.Deployment)
    requires WritesDesired(env, d, r)
    ensures r.name == TrimSpace(d.name) && r.image == TrimSpace(d.image) && r.domain == TrimSpace(d.domain)
    ensures r.envs == d.env && r.ports == d.ports
    ensures r.proxyPort == (if d.proxyPort.Some? then d.proxyPort.value else 0)
    ensures r.isPublic == (d.isPublic.Some? && d.isPublic.value)
    ensures |r.volumes| == |d.volumeMounts| &&
            forall i :: 0 <= i < |r.volumes| ==> StoredMount(env.base, r.id, d.volumeMounts[i], r.volumes[i])
    ensures |r.fileMounts| == |d.fileMounts| &&
            forall i :: 0 <= i < |r.fileMounts| ==> SameFile(d.fileMounts[i], r.fileMounts[i])
    ensures r.basicAuth.Some? <==> d.basicAuth.Some? && d.basicAuth.value != []
    ensures r.basicAuth.Some? ==> |r.basicAuth.value| == |d.basicAuth.value|
    ensures r.basicAuth.Some? ==>
              forall i :: 0 <= i < |r.basicAuth.value| ==> StoredUser(env, d.basicAuth.value[i], r.basicAuth.value[i])
    ensures r.security.Some? <==> d.security.Some?
    ensures r.security.Some? ==>
              r.security.value == d.security.value.(wafMode := TrimSpace(d.security.value.wafMode))
  {
    hide TrimSpace, Trimmed, HashUsers, BindingsOf, StoredMount, StoredUser, ExportFileMount;
    StoredMounts(env.base, r.id, d.volumeMounts);
    if d.basicAuth.Some? && d.basicAuth.value != [] { StoredUsers(env, d.basicAuth.value); }
    StoredFiles(d.fileMounts);
  }

  lemma StoredFiles(ms: seq<FileMount>)
    ensures forall i :: 0 <= i < |ms| ==> SameFile(ms[i], ExportFileMounts(ms)[i])
  {
    hide TrimSpace;
  }

  /** A written host profile carries the desired settings. */
  lemma WrittenHost(h: Host)
    ensures var p := ProfileOf(h);
            && p.displayName == TrimSpace(h.displayName)
            && (h.waf.Some? ==> p.ipAllowlist == h.waf.value.ipAllowlist && p.customRules == h.waf.value.customRules)
            && (h.waf.None? ==> p.wafMode == "detection" && p.ipAllowlist == [] && p.customRules == [])
  {
    hide TrimSpace;
  }

  // ---------------------------------------------------------------- what an export shows

  /** No secret leaves in clear: every exported sensitive variable, password and registry secret is a
      placeholder. */
  lemma ExportHidesSecrets(base: string, r: Store.Deployment, registry: Store.Registry)
    ensures var e := ExportDeployment(base, r);
            && (forall k :: k in e.env && Sensitive(k) ==> IsPlaceholder(e.env[k]))
            && (e.basicAuth.Some? ==>
                  forall i :: 0 <= i < |e.basicAuth.value| ==> IsPlaceholder(e.basicAuth.value[i].password))
    ensures IsPlaceholder(ExportRegistry(registry).password)
  {
    hide IsPlaceholder, PlaceholderFor, Sensitive;
    forall raw ensures IsPlaceholder(PlaceholderFor(raw)) { PlaceholderForIsPlaceholder(raw); }
  }

  /** Everything that is no secret is shown as it is stored. */
  lemma ExportShowsTheRest(base: string, r: Store.Deployment)
    ensures var e := ExportDeployment(base, r);
            && e.name == r.name && e.image == r.image && e.domain == r.domain && e.ports == r.ports
            && e.isPublic == Some(r.isPublic) && e.security == r.security
            && e.proxyPort == (if r.proxyPort > 0 then Some(r.proxyPort) else None)
            && e.env.Keys == r.envs.Keys
            && (forall k :: k in r.envs && (!Sensitive(k) || IsPlaceholder(r.envs[k])) ==> e.env[k] == r.envs[k])
            && |e.fileMounts| == |r.fileMounts|
            && (forall i :: 0 <= i < |r.fileMounts| ==> SameFile(r.fileMounts[i], e.fileMounts[i]))
            && (e.basicAuth.Some? <==> r.basicAuth.Some?)
            && (r.basicAuth.Some? ==> |e.basicAuth.value| == |r.basicAuth.value|)
            && (r.basicAuth.Some? ==>
                  forall i :: 0 <= i < |r.basicAuth.value| ==>
                    e.basicAuth.value[i].username == r.basicAuth.value[i].username)
  {
    hide IsPlaceholder, PlaceholderFor, Sensitive, TrimSpace, ExportMounts;
  }
}
