/** When an applied update leaves the container as it is although it rewrites the record: the redeploy
    check of the executor (api/internal/configapply/apply.go) looks only at the planned changes, and
    the planner compares secrets as placeholders and does not compare file mounts. */
module ApplyRedeploy {
  import opened Text
  import opened Ordering
  import opened Paths
  import opened ConfigV1
  import opened Plan
  import opened Export
  import opened Apply
  import Store

  /** The changes planned for a stored record. */
  function PlannedChanges(base: string, existing: Store.Deployment, d: Deployment): seq<string> {
    DiffDeployment(CanonicalDeployment(ExportDeployment(base, existing)), CanonicalDeployment(d))
  }

  /** What the container is started from. */
  predicate SameRuntime(a: Store.Deployment, b: Store.Deployment) {
    a.image == b.image && a.envs == b.envs && a.ports == b.ports && a.proxyPort == b.proxyPort &&
    a.volumes == b.volumes && a.fileMounts == b.fileMounts && a.basicAuth == b.basicAuth
  }

  /** The planner's comparisons behind the six fields that ask for a redeploy. */
  predicate RuntimeCompares(live: Deployment, desired: Deployment) {
    EqualBasicAuth(live.basicAuth, desired.basicAuth) && EqualEnv(live.env, desired.env) &&
    TrimSpace(live.image) == TrimSpace(desired.image) && EqualStrings(live.ports, desired.ports) &&
    live.proxyPort == desired.proxyPort && EqualMounts(live.volumeMounts, desired.volumeMounts)
  }

  // ---------------------------------------------------------------- the check and the comparisons

  predicate RuntimeField(f: string) {
    f == "image" || f == "env" || f == "ports" || f == "proxyPort" || f == "volumeMounts" || f == "basicAuth"
  }

  lemma FieldsAreTrimmed()
    ensures Trimmed("image") && Trimmed("env") && Trimmed("ports") && Trimmed("proxyPort") && Trimmed("volumeMounts")
    ensures Trimmed("basicAuth") && Trimmed("domain") && Trimmed("public") && Trimmed("security")
  {
  }

  lemma OtherFields()
    ensures !RuntimeField("domain") && !RuntimeField("public") && !RuntimeField("security")
  {
    assert |"domain"| == 6 && |"public"| == 6 && |"security"| == 8;
    assert |"image"| == 5 && |"env"| == 3 && |"ports"| == 5 && |"proxyPort"| == 9 && |"volumeMounts"| == 12 &&
           |"basicAuth"| == 9;
  }

  lemma RedeployOf(x: seq<string>, y: seq<string>)
    ensures RedeployRequired(x + y) <==> RedeployRequired(x) || RedeployRequired(y)
  {
    hide TrimSpace;
    forall i | 0 <= i < |x| ensures (x + y)[i] == x[i] {}
    forall i | 0 <= i < |y| ensures (x + y)[|x| + i] == y[i] {}
    if RedeployRequired(x) {
      var i :| 0 <= i < |x| && RuntimeField(TrimSpace(x[i]));
      assert RuntimeField(TrimSpace((x + y)[i]));
    }
    if RedeployRequired(y) {
      var i :| 0 <= i < |y| && RuntimeField(TrimSpace(y[i]));
      assert RuntimeField(TrimSpace((x + y)[|x| + i]));
    }
  }

  lemma RedeployOfOne(same: bool, f: string)
    requires Trimmed(f)
    ensures RedeployRequired(IfChanged(same, f)) <==> !same && RuntimeField(f)
  {
    hide TrimSpace, Trimmed;
    var list := IfChanged(same, f);
    assert TrimSpace(f) == f;
    assert !same ==> list[0] == f;
  }

  /** A redeploy is asked for exactly when one of the six comparisons fails. */
  lemma RedeployIsComparison(live: Deployment, desired: Deployment)
    ensures RedeployRequired(DiffDeployment(live, desired)) <==> !RuntimeCompares(live, desired)
  {
    hide RedeployRequired, IfChanged, EqualBasicAuth, EqualEnv, EqualStrings, EqualMounts, EqualSecurity, TrimSpace,
         Trimmed;
    FieldsAreTrimmed();
    OtherFields();
    var a := IfChanged(EqualBasicAuth(live.basicAuth, desired.basicAuth), "basicAuth");
    var b := IfChanged(TrimSpace(live.domain) == TrimSpace(desired.domain), "domain");
    var c := IfChanged(EqualEnv(live.env, desired.env), "env");
    var d := IfChanged(TrimSpace(live.image) == TrimSpace(desired.image), "image");
    var e := IfChanged(EqualStrings(live.ports, desired.ports), "ports");
    var f := IfChanged(live.proxyPort == desired.proxyPort, "proxyPort");
    var g := IfChanged(live.isPublic == desired.isPublic, "public");
    var h := IfChanged(EqualSecurity(live.security, desired.security), "security");
    var i := IfChanged(EqualMounts(live.volumeMounts, desired.volumeMounts), "volumeMounts");
    RedeployOfOne(EqualBasicAuth(live.basicAuth, desired.basicAuth), "basicAuth");
    RedeployOfOne(TrimSpace(live.domain) == TrimSpace(desired.domain), "domain");
    RedeployOfOne(EqualEnv(live.env, desired.env), "env");
    RedeployOfOne(TrimSpace(live.image) == TrimSpace(desired.image), "image");
    RedeployOfOne(EqualStrings(live.ports, desired.ports), "ports");
    RedeployOfOne(live.proxyPort == desired.proxyPort, "proxyPort");
    RedeployOfOne(live.isPublic == desired.isPublic, "public");
    RedeployOfOne(EqualSecurity(live.security, desired.security), "security");
    RedeployOfOne(EqualMounts(live.volumeMounts, desired.volumeMounts), "volumeMounts");
    RedeployOf(a, b);
    RedeployOf(a + b, c);
    RedeployOf(a + b + c, d);
    RedeployOf(a + b + c + d, e);
    RedeployOf(a + b + c + d + e, f);
    RedeployOf(a + b + c + d + e + f, g);
    RedeployOf(a + b + c + d + e + f + g, h);
    RedeployOf(a + b + c + d + e + f + g + h, i);
    hide RuntimeField;
    assert DiffDeployment(live, desired) == a + b + c + d + e + f + g + h + i;
  }

  // ---------------------------------------------------------------- what the comparisons do not see

  /** The record is spelled as the update would write it: only white space can differ, since the
      planner compares trimmed values. */
  predicate SameSpelling(base: string, existing: Store.Deployment, d: Deployment) {
    && Trimmed(existing.image) && existing.proxyPort >= 0 && existing.ports == d.ports
    && (forall k :: k in existing.envs && k in d.env && !Sensitive(k) ==> existing.envs[k] == d.env[k])
    && BindingsOf(base, existing.id, ExportMounts(base, existing.id, existing.volumes)) == Some(existing.volumes)
  }

  /** Every secret of the environment is already stored as the desired placeholder. */
  predicate SecretsKept(existing: Store.Deployment, d: Deployment) {
    forall k :: k in existing.envs && k in d.env && Sensitive(k) ==> existing.envs[k] == d.env[k]
  }

  predicate FilesKept(existing: Store.Deployment, d: Deployment) {
    existing.fileMounts == ExportFileMounts(d.fileMounts)
  }

  /** The stored users are the desired ones in this order, each with the hash that would be written. */
  predicate UsersKept(env: Env, existing: Store.Deployment, d: Deployment) {
    d.basicAuth.Some? ==> HashBasicAuth(env, d.basicAuth) == Some(existing.basicAuth)
  }

  lemma SameKeys(a: map<string, string>, b: map<string, string>)
    requires |a| == |b| && forall k :: k in a ==> k in b
    ensures a.Keys == b.Keys
  {
    assert a.Keys <= b.Keys && |a.Keys| == |b.Keys|;
    if a.Keys != b.Keys {
      SubsetSmaller(a.Keys, b.Keys);
    }
  }

  lemma SubsetSmaller(a: set<string>, b: set<string>)
    requires a < b
    ensures |a| < |b|
  {
    assert |b - a| > 0;
    assert b == a + (b - a);
  }

  /** Bindings depend only on the trimmed fields that the planner compares. */
  lemma {:induction false} EqualMountsSameBindings(base: string, id: string, a: seq<VolumeMount>, b: seq<VolumeMount>)
    requires EqualMounts(a, b)
    ensures BindingsOf(base, id, a) == BindingsOf(base, id, b)
  {
    hide TrimSpace, JoinPath, ToLower;
    if a != [] {
      assert EqualMount(a[0], b[0]);
      assert BindingOf(base, id, a[0]) == BindingOf(base, id, b[0]);
      forall i | 0 <= i < |a[1..]| ensures EqualMount(a[1..][i], b[1..][i]) { assert EqualMount(a[i + 1], b[i + 1]); }
      hide EqualMount, BindingOf;
      EqualMountsSameBindings(base, id, a[1..], b[1..]);
    }
  }

  /** The redeploy check of an update is sound exactly when the planner's comparisons hide nothing:
      if it says no, the written record starts the same container as the stored one if and only if the
      spelling agrees, no secret is replaced by a placeholder, and file mounts and users are those
      already stored. */
  lemma RedeployCheckExactly(env: Env, existing: Store.Deployment, d: Deployment)
    requires FromDesired(env, d, existing.id).Some? && !RedeployRequired(PlannedChanges(env.base, existing, d))
    ensures var written := UpdatedRecord(FromDesired(env, d, existing.id).value, existing,
                                         PlannedChanges(env.base, existing, d));
            SameRuntime(written, existing) <==>
            SameSpelling(env.base, existing, d) && SecretsKept(existing, d) && FilesKept(existing, d) &&
            UsersKept(env, existing, d)
  {
    var live := ExportDeployment(env.base, existing);
    RedeployIsComparison(CanonicalDeployment(live), CanonicalDeployment(d));
    hide DiffDeployment, RedeployRequired, Sensitive, IsPlaceholder, EqualMounts, BindingsOf, ExportMounts,
         ExportFileMounts, StoredSecurity, TrimSpace, Trimmed, EqualStrings, ExportEnvValue, SortBy, EqualUsers,
         HashUsers;
    EqualMountsSameBindings(env.base, existing.id, live.volumeMounts, d.volumeMounts);
    SameKeys(live.env, d.env);
    ImageKept(existing.image, d.image);
  }

  lemma ImageKept(stored: string, desired: string)
    requires TrimSpace(stored) == TrimSpace(desired)
    ensures TrimSpace(desired) == stored <==> Trimmed(stored)
  {
  }

  // ---------------------------------------------------------------- an input for which the check is unsound

  /** A stored record with one variable. */
  function Stored(id: string, name: string, key: string, value: string, domain: string): Store.Deployment {
    Store.Deployment(id, name, name, map[key := value], [], 0, [], [], domain, true, None, None, Store.Healthy, "", "")
  }

  function Wanted(name: string, key: string, value: string, domain: string): Deployment {
    Deployment(name, name, domain, Some(true), map[key := value], [], None, [], [], None, None)
  }

  /** Only the domain is planned, no redeploy is asked for, the record stays Healthy, and the variable
      is overwritten. */
  predicate SilentlyOverwrites(env: Env, existing: Store.Deployment, d: Deployment, key: string) {
    && PlannedChanges(env.base, existing, d) == ["domain"] && !RedeployRequired(PlannedChanges(env.base, existing, d))
    && FromDesired(env, d, existing.id).Some? && key in existing.envs
    && var written := UpdatedRecord(FromDesired(env, d, existing.id).value, existing,
                                    PlannedChanges(env.base, existing, d));
       written.status == Store.Healthy && key in written.envs && written.envs[key] != existing.envs[key]
  }

  lemma OnlyDomain(live: Deployment, d: Deployment)
    requires RuntimeCompares(live, d) && TrimSpace(live.domain) != TrimSpace(d.domain)
    requires live.isPublic == d.isPublic && EqualSecurity(live.security, d.security)
    ensures DiffDeployment(live, d) == ["domain"]
  {
    hide EqualBasicAuth, EqualEnv, EqualStrings, EqualMounts, EqualSecurity, TrimSpace, Trimmed;
  }

  lemma SecretCompares(name: string, key: string, secret: string, placeholder: string)
    requires Sensitive(key) && IsPlaceholder(placeholder)
    ensures EqualEnv(ExportEnv(name, map[key := secret]), map[key := placeholder])
  {
    PlaceholderForIsPlaceholder("ENV_" + name + "_" + key);
    hide IsPlaceholder, PlaceholderFor, Sensitive, TrimSpace;
    var a, b := ExportEnv(name, map[key := secret]), map[key := placeholder];
    assert a.Keys == {key} == b.Keys;
    assert |a| == |a.Keys| == |b.Keys| == |b|;
  }

  /** A change of the domain alone replaces a secret that is stored in clear by its placeholder. */
  lemma DomainChangeLosesSecret(env: Env, id: string, name: string, key: string, secret: string, placeholder: string,
                                from: string, to: string)
    requires Sensitive(key) && IsPlaceholder(placeholder) && secret != placeholder && TrimSpace(from) != TrimSpace(to)
    ensures SilentlyOverwrites(env, Stored(id, name, key, secret, from), Wanted(name, key, placeholder, to), key)
  {
    hide DiffDeployment, RedeployRequired, Sensitive, IsPlaceholder, TrimSpace, Trimmed, EqualEnv, ExportEnv,
         StoredSecurity;
    var existing, d := Stored(id, name, key, secret, from), Wanted(name, key, placeholder, to);
    var live := ExportDeployment(env.base, existing);
    SecretCompares(name, key, secret, placeholder);
    assert RuntimeCompares(CanonicalDeployment(live), CanonicalDeployment(d));
    OnlyDomain(CanonicalDeployment(live), CanonicalDeployment(d));
    RedeployIsComparison(CanonicalDeployment(live), CanonicalDeployment(d));
  }

  lemma KeyIsSensitive()
    ensures Sensitive("API_KEY")
  {
    assert Trimmed("API_KEY");
    assert ToUpper("API_KEY") == "API_KEY";
    assert HasSuffix("API_KEY", "KEY");
    hide Contains;
  }

  /** One such input: API_KEY stored as s3cret, moved from a.dev to b.dev. */
  lemma MovingLosesApiKey(env: Env, id: string)
    ensures SilentlyOverwrites(env, Stored(id, "web", "API_KEY", "s3cret", "a.dev"),
                               Wanted("web", "API_KEY", PlaceholderFor("API_KEY"), "b.dev"), "API_KEY")
  {
    assert Trimmed("a.dev") && Trimmed("b.dev") && "a.dev"[0] != "b.dev"[0];
    PlaceholderForIsPlaceholder("API_KEY");
    assert PlaceholderFor("API_KEY")[0] == '$' && "s3cret"[0] == 's';
    KeyIsSensitive();
    hide SilentlyOverwrites, Stored, Wanted, Sensitive, IsPlaceholder, PlaceholderFor;
    DomainChangeLosesSecret(env, id, "web", "API_KEY", "s3cret", PlaceholderFor("API_KEY"), "a.dev", "b.dev");
  }
}
