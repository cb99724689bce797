/** Writing a desired resource to the store and exporting it gives back a valid resource in which
    the planner finds no difference. */
module RoundTrip {
  import opened Text
  import opened Paths
  import opened Ports
  import opened Ordering
  import opened ConfigV1
  import opened Plan
  import opened Export
  import opened Apply
  import Store

  // ---------------------------------------------------------------- store spelling

  /** Ids as newID prints them: lower-case hex digits and dashes. */
  predicate GeneratedId(id: string) {
    id != "" && forall i :: 0 <= i < |id| ==> '0' <= id[i] <= '9' || 'a' <= id[i] <= 'f' || id[i] == '-'
  }

  /** An absolute, cleaned managed-volumes directory without a colon. */
  predicate GoodBase(base: string) { IsAbs(base) && Clean(base) == base && ':' !in base }

  /** A mount that survives the trip: lower-case mode, no owner or mode bits, a source without a
      colon, and a bind source that does not look like a managed volume of this deployment. */
  predicate SpelledMount(base: string, id: string, m: VolumeMount) {
    && (TrimSpace(m.mode) == "managed" || TrimSpace(m.mode) == "bind")
    && m.uid.None? && m.gid.None? && Blank(m.dirMode) && ':' !in TrimSpace(m.source)
    && (TrimSpace(m.mode) == "bind" ==> ManagedNameFor(base, id, TrimSpace(m.source)).None?)
  }

  predicate SpelledDeployment(base: string, id: string, d: Deployment) {
    && Trimmed(d.name)
    && (d.basicAuth.Some? ==> forall i :: 0 <= i < |d.basicAuth.value| ==> Trimmed(d.basicAuth.value[i].username))
    && (forall i :: 0 <= i < |d.volumeMounts| ==> SpelledMount(base, id, d.volumeMounts[i]))
  }

  predicate SpelledRegistry(r: Registry) { Store.NormalizePrefix(r.prefix) == r.prefix }

  // ---------------------------------------------------------------- mounts

  lemma GeneratedIdIsPlain(id: string)
    requires GeneratedId(id)
    ensures Plain(id) && ':' !in id
  {
    assert id[0] != '.';
  }

  /** Where a managed volume lives: below the base directory and the deployment id. */
  lemma ManagedPath(base: string, id: string, name: string)
    requires GoodBase(base) && GeneratedId(id) && ManagedName(name)
    ensures var source := DirPrefix(base) + "/" + id + "/" + name;
            JoinPath([base, id, name]) == source && Clean(source) == source && ':' !in source && Trimmed(source) &&
            source != ""
  {
    GeneratedIdIsPlain(id);
    ManagedNameIsPlain(name);
    hide Clean, ManagedName, GeneratedId;
    var es := [id, name];
    assert es[1..] == [name];
    assert Join(es, '/') == id + ['/'] + name;
    assert [base, id, name][1..] == es;
    assert Join([base, id, name], '/') == base + ['/'] + Join(es, '/');
    JoinBelow(base, es);
    CleanIdempotent(base + ['/'] + Join(es, '/'));
    var source := DirPrefix(base) + "/" + id + "/" + name;
    assert source == DirPrefix(base) + ['/'] + Join(es, '/');
    assert source[|source| - 1] == name[|name| - 1];
    assert source[0] == '/';
  }

  lemma ManagedPrefix(base: string, id: string)
    requires GoodBase(base) && GeneratedId(id)
    ensures JoinPath([Clean(base), id]) + "/" == DirPrefix(base) + "/" + id + "/"
  {
    GeneratedIdIsPlain(id);
    hide Clean, GeneratedId;
    assert [base, id][1..] == [id];
    assert Join([id], '/') == id;
    assert Join([base, id], '/') == base + ['/'] + Join([id], '/');
    JoinBelow(base, [id]);
  }

  lemma ManagedIsRecognised(base: string, id: string, name: string)
    requires GoodBase(base) && GeneratedId(id) && ManagedName(name)
    ensures ManagedNameFor(base, id, JoinPath([base, id, name])) == Some(name)
  {
    ManagedNameIsPlain(name);
    ManagedPath(base, id, name);
    ManagedPrefix(base, id);
    hide Clean, JoinPath, ManagedName, GeneratedId, Trimmed;
    var prefix := DirPrefix(base) + "/" + id + "/";
    var source := DirPrefix(base) + "/" + id + "/" + name;
    assert source == prefix + name;
    assert source[|prefix|..] == name;
  }

  lemma ExportBinding(base: string, id: string, source: string, target: string)
    requires ':' !in source && source != ""
    ensures ExportMount(base, id, source + ":" + target) ==
            (match ManagedNameFor(base, id, source)
             case Some(name) => Some(VolumeMount("managed", name, target, None, None, ""))
             case None => Some(VolumeMount("bind", source, target, None, None, "")))
  {
    hide ManagedNameFor;
    var b := source + [':'] + target;
    assert b == source + ":" + target;
    IndexOfAfter(source, ':', target);
    assert b[..|source|] == source && b[|source| + 1..] == target;
  }

  lemma ModeNames(mode: string)
    requires mode == "managed" || mode == "bind"
    ensures ToLower(mode) == mode && TrimSpace(mode) == mode && TrimSpace("") == ""
  {
    assert ToLower("managed") == "managed" && ToLower("bind") == "bind";
    assert Trimmed("managed") && Trimmed("bind");
  }

  /** A valid, spelled mount comes back as itself, trimmed. */
  lemma MountRoundTrip(base: string, id: string, m: VolumeMount)
    requires GoodBase(base) && GeneratedId(id) && ValidMount(m) && SpelledMount(base, id, m)
    ensures BindingOf(base, id, m).Some?
    ensures ExportMount(base, id, BindingOf(base, id, m).value) ==
            Some(TrimmedMount(m))
  {
    ModeNames(TrimSpace(m.mode));
    hide GoodBase, GeneratedId, TrimSpace, Trimmed, ToLower, ExportMount, ManagedNameFor, JoinPath, Clean,
         ManagedName, DirPrefix;
    var source, target := TrimSpace(m.source), TrimSpace(m.target);
    if TrimSpace(m.mode) == "managed" {
      ManagedPath(base, id, source);
      ManagedIsRecognised(base, id, source);
      ExportBinding(base, id, JoinPath([base, id, source]), target);
    } else {
      ExportBinding(base, id, source, target);
    }
  }

  function TrimmedMount(m: VolumeMount): VolumeMount {
    VolumeMount(TrimSpace(m.mode), TrimSpace(m.source), TrimSpace(m.target), None, None, "")
  }

  lemma MountStaysValid(m: VolumeMount)
    requires ValidMount(m) && (TrimSpace(m.mode) == "managed" || TrimSpace(m.mode) == "bind")
    ensures ValidMount(TrimmedMount(m))
  {
    var mode := TrimSpace(m.mode);
    ModeNames(mode);
    RulesWithoutSettings(mode, TrimSpace(m.source), TrimSpace(m.target), m.uid, m.gid, m.dirMode);
    hide MountRules, TrimSpace, Trimmed, ToLower;
  }

  lemma RulesWithoutSettings(mode: string, source: string, target: string, uid: Option<int>, gid: Option<int>,
                             dirMode: string)
    requires MountRules(mode, source, target, uid, gid, dirMode)
    ensures MountRules(mode, source, target, None, None, "")
  {
    assert TrimSpace("") == "";
    hide Clean, ManagedName, OctalMode, TrimSpace, IsAbs;
  }

  lemma TrimmedMountEqual(m: VolumeMount)
    requires m.uid.None? && m.gid.None? && Blank(m.dirMode)
    ensures EqualMount(TrimmedMount(m), m)
  {
    assert TrimSpace("") == "";
    hide TrimSpace, Trimmed;
  }

  lemma {:induction false} MountsRoundTrip(base: string, id: string, ms: seq<VolumeMount>)
    requires GoodBase(base) && GeneratedId(id)
    requires forall i :: 0 <= i < |ms| ==> ValidMount(ms[i]) && SpelledMount(base, id, ms[i])
    ensures BindingsOf(base, id, ms).Some?
    ensures var es := ExportMounts(base, id, BindingsOf(base, id, ms).value);
            EqualMounts(es, ms) && forall i :: 0 <= i < |es| ==> ValidMount(es[i])
  {
    hide GoodBase, GeneratedId, ValidMount, SpelledMount, BindingOf, ExportMount, EqualMount;
    if ms != [] {
      var m := ms[0];
      MountRoundTrip(base, id, m);
      SpelledParts(base, id, m);
      MountStaysValid(m);
      TrimmedMountEqual(m);
      forall i | 0 <= i < |ms[1..]| ensures ValidMount(ms[1..][i]) && SpelledMount(base, id, ms[1..][i]) {
        assert ms[1..][i] == ms[i + 1];
      }
      MountsRoundTrip(base, id, ms[1..]);
      var b, rest := BindingOf(base, id, m).value, BindingsOf(base, id, ms[1..]).value;
      var e, es := ExportMount(base, id, b).value, ExportMounts(base, id, rest);
      assert BindingsOf(base, id, ms).value == [b] + rest;
      assert ([b] + rest)[1..] == rest;
      assert ExportMounts(base, id, [b] + rest) == [e] + es;
      forall i | 0 <= i < |ms| ensures EqualMount(([e] + es)[i], ms[i]) && ValidMount(([e] + es)[i]) {
        if i > 0 { assert ms[1..][i - 1] == ms[i]; }
      }
    }
  }

  lemma SpelledParts(base: string, id: string, m: VolumeMount)
    requires SpelledMount(base, id, m)
    ensures TrimSpace(m.mode) == "managed" || TrimSpace(m.mode) == "bind"
    ensures m.uid.None? && m.gid.None? && Blank(m.dirMode)
  {
  }

  // ---------------------------------------------------------------- users

  predicate SameUsernames(a: seq<User>, b: seq<User>) {
    |a| == |b| && forall i :: 0 <= i < |a| ==> a[i].username == b[i].username
  }

  lemma {:induction false} InsertSameUsernames(x: User, y: User, a: seq<User>, b: seq<User>)
    requires x.username == y.username && SameUsernames(a, b)
    ensures SameUsernames(Insert(Username, x, a), Insert(Username, y, b))
  {
    if a != [] && !Leq(x.username, a[0].username) { InsertSameUsernames(x, y, a[1..], b[1..]); }
  }

  /** Sorting looks at user names only. */
  lemma {:induction false} SortSameUsernames(a: seq<User>, b: seq<User>)
    requires SameUsernames(a, b)
    ensures SameUsernames(SortBy(Username, a), SortBy(Username, b))
  {
    if a != [] {
      SortSameUsernames(a[1..], b[1..]);
      InsertSameUsernames(a[0], b[0], SortBy(Username, a[1..]), SortBy(Username, b[1..]));
    }
  }

  predicate AllPlaceholders(users: seq<User>) { forall u :: u in users ==> IsPlaceholder(u.password) }

  lemma SortKeepsPlaceholders(users: seq<User>)
    requires AllPlaceholders(users)
    ensures AllPlaceholders(SortBy(Username, users))
  {
    hide IsPlaceholder;
    SortProperties(Username, users);
    forall u | u in SortBy(Username, users) ensures IsPlaceholder(u.password) {
      assert u in multiset(users);
    }
  }

  lemma {:induction false} HashKeepsUsernames(env: Env, users: seq<User>)
    requires HashUsers(env, users).Some? && forall i :: 0 <= i < |users| ==> Trimmed(users[i].username)
    ensures SameUsernames(HashUsers(env, users).value, users)
  {
    hide TrimSpace, Trimmed;
    if users != [] { HashKeepsUsernames(env, users[1..]); }
  }

  lemma ExportedUsers(name: string, users: seq<User>)
    ensures AllPlaceholders(ExportUsers(name, users)) && SameUsernames(ExportUsers(name, users), users)
  {
    hide IsPlaceholder, PlaceholderFor;
    forall i | 0 <= i < |users| ensures IsPlaceholder(ExportUsers(name, users)[i].password) {
      PlaceholderForIsPlaceholder("BASIC_AUTH_" + name + "_" + users[i].username);
    }
  }

  /** Hashed and exported users are valid again and equal to the desired ones for the planner. */
  lemma UsersRoundTrip(env: Env, name: string, users: seq<User>)
    requires ValidUsers(users) && HashUsers(env, users).Some?
    requires forall i :: 0 <= i < |users| ==> Trimmed(users[i].username)
    ensures var es := ExportUsers(name, HashUsers(env, users).value);
            ValidUsers(es) && EqualUsers(SortBy(Username, es), SortBy(Username, users))
  {
    hide IsPlaceholder, Trimmed, TrimSpace;
    HashKeepsUsernames(env, users);
    var hashed := HashUsers(env, users).value;
    ExportedUsers(name, hashed);
    var es := ExportUsers(name, hashed);
    assert SameUsernames(es, users);
    SortSameUsernames(es, users);
    assert AllPlaceholders(users);
    SortKeepsPlaceholders(es);
    SortKeepsPlaceholders(users);
    var a, b := SortBy(Username, es), SortBy(Username, users);
    forall i | 0 <= i < |a| ensures IsPlaceholder(a[i].password) && IsPlaceholder(b[i].password) {
      assert a[i] in a && b[i] in b;
    }
    forall i | 0 <= i < |es| ensures !Blank(es[i].username) && IsPlaceholder(es[i].password) {
      assert es[i] in es;
    }
  }

  // ---------------------------------------------------------------- the other fields

  lemma EnvRoundTrip(name: string, env: map<string, string>)
    requires ValidEnv(env)
    ensures ExportEnv(name, env) == env
  {
    hide Sensitive, IsPlaceholder, PlaceholderFor, Blank;
  }

  lemma SecurityRoundTrip(ip: string -> bool, s: Option<Security>)
    ensures EqualSecurity(StoredSecurity(s), s) && (StoredSecurity(s).Some? <==> s.Some?)
    ensures s.Some? && ValidSecurity(ip, s.value) ==> ValidSecurity(ip, StoredSecurity(s).value)
  {
    hide ValidAddresses, TrimSpace, ToLower, IsSpace;
    if s.Some? { assert TrimSpace(TrimSpace(s.value.wafMode)) == TrimSpace(s.value.wafMode); }
  }

  lemma FileMountsRoundTrip(ms: seq<FileMount>)
    requires ValidFileMounts(ms)
    ensures ValidFileMounts(ExportFileMounts(ms))
    ensures ExportFileMounts(ExportFileMounts(ms)) == ExportFileMounts(ms)
  {
    hide Clean, ManagedName, OctalMode;
    var es := ExportFileMounts(ms);
    forall i | 0 <= i < |ms| ensures ValidFileMount(es[i]) && ExportFileMount(es[i]) == es[i] {
      FileMountRoundTrip(ms[i]);
    }
    hide TrimSpace;
    forall i, j | 0 <= i < j < |es| ensures
      TrimSpace(es[i].source) != TrimSpace(es[j].source) &&
      Clean(TrimSpace(es[i].target)) != Clean(TrimSpace(es[j].target))
    {
      assert TrimSpace(es[i].source) == TrimSpace(ms[i].source) && TrimSpace(es[j].source) == TrimSpace(ms[j].source);
      assert TrimSpace(es[i].target) == TrimSpace(ms[i].target) && TrimSpace(es[j].target) == TrimSpace(ms[j].target);
    }
    assert ExportFileMounts(es) == es;
  }

  lemma FileMountRoundTrip(m: FileMount)
    requires ValidFileMount(m)
    ensures ValidFileMount(ExportFileMount(m)) && ExportFileMount(ExportFileMount(m)) == ExportFileMount(m)
  {
    assert TrimSpace("") == "";
    hide Clean, ManagedName, OctalMode, TrimSpace, Trimmed;
  }

  // ---------------------------------------------------------------- whole resources

  /** The record differs from what FromDesired gives at most in its status. */
  predicate WritesDesired(env: Env, d: Deployment, r: Store.Deployment) {
    FromDesired(env, d, r.id).Some? &&
    r == FromDesired(env, d, r.id).value.(status := r.status, reason := r.reason, error := r.error)
  }

  /** A deployment written from a desired one exports to a valid deployment with no difference. */
  lemma DeploymentRoundTrip(ip: string -> bool, env: Env, d: Deployment, r: Store.Deployment)
    requires GoodBase(env.base) && GeneratedId(r.id) && ValidDeployment(ip, d) && SpelledDeployment(env.base, r.id, d)
    requires WritesDesired(env, d, r)
    ensures r.name == d.name
    ensures ValidDeployment(ip, ExportDeployment(env.base, r))
    ensures DiffDeployment(CanonicalDeployment(ExportDeployment(env.base, r)), CanonicalDeployment(d)) == []
  {
    hide GoodBase, GeneratedId, ValidMount, SpelledMount, ValidEnv, ValidFileMounts, ValidUsers, ValidSecurity,
         ValidPorts, TrimSpace, Trimmed, BindingsOf, HashUsers, ExportUsers, ExportFileMounts, ExportMounts,
         StoredSecurity, ExportEnv, EqualMounts, EqualUsers, EqualSecurity, EqualEnv, SortBy;
    MountsRoundTrip(env.base, r.id, d.volumeMounts);
    EnvRoundTrip(r.name, d.env);
    SecurityRoundTrip(ip, d.security);
    FileMountsRoundTrip(d.fileMounts);
    if d.basicAuth.Some? {
      UsersNotEmpty(d.basicAuth.value);
      UsersRoundTrip(env, r.name, d.basicAuth.value);
    }
    ProxyPortIsPositive(d.ports, d.proxyPort);
    EqualEnvReflexive(d.env);
    EqualStringsReflexive(d.ports);
  }

  lemma UsersNotEmpty(users: seq<User>)
    requires ValidUsers(users)
    ensures users != []
  {
  }

  lemma ProxyPortIsPositive(ports: seq<string>, proxyPort: Option<int>)
    requires ValidPorts(ports, proxyPort)
    ensures proxyPort.Some? ==> proxyPort.value > 0
  {
  }

  lemma EqualEnvReflexive(env: map<string, string>)
    ensures EqualEnv(env, env)
  {
    hide Sensitive, IsPlaceholder, TrimSpace;
  }

  lemma EqualStringsReflexive(s: seq<string>)
    ensures EqualStrings(s, s)
  {
  }

  /** A registry stored from a desired one exports to a valid registry with no difference. */
  lemma RegistryRoundTrip(d: Registry, id: string)
    requires ValidRegistry(d) && SpelledRegistry(d)
    ensures var r := Store.Normalized(id, d.prefix, d.username, d.password);
            ValidRegistry(ExportRegistry(r)) && r.prefix == d.prefix && r.secret != "" &&
            DiffRegistry(ExportRegistry(r), d) == []
  {
    hide Store.NormalizePrefix, PlaceholderFor, TrimSpace, Trimmed;
    var pw := TrimSpace(d.password);
    assert TrimSpace(pw) == pw;
  }

  lemma AccessMode(m: string)
    ensures var n := NormalizeAccessMode(m); TrimSpace(n) == n && NormalizeAccessMode(n) == n && ValidAccessMode(n)
  {
    assert ToLower("waf_only") == "waf_only" && ToLower("waf_and_login") == "waf_and_login";
    assert ToLower("login_only") == "login_only";
    assert Trimmed("waf_only") && Trimmed("waf_and_login") && Trimmed("login_only");
  }

  lemma WafMode(m: string)
    ensures var n := NormalizeWafMode(m); TrimSpace(n) == n && NormalizeWafMode(n) == n && ValidWafMode(n) && n != ""
  {
    assert ToLower("enforcement") == "enforcement" && ToLower("detection") == "detection";
    assert Trimmed("enforcement") && Trimmed("detection");
  }

  lemma DetectionMode()
    ensures NormalizeWafMode("detection") == "detection" && TrimSpace("detection") == "detection" &&
            ValidWafMode("detection")
  {
    assert ToLower("detection") == "detection" && Trimmed("detection");
  }

  /** The exported dashboard WAF settings are those the planner compares with. */
  lemma WafRoundTrip(h: Host)
    ensures var e := ExportHost(ProfileOf(h)).waf;
            e.Some? && ValidWafMode(e.value.mode) && NormalizeWaf(e) == NormalizeWaf(h.waf)
    ensures ExportHost(ProfileOf(h)).waf.value.ipAllowlist == if h.waf.Some? then h.waf.value.ipAllowlist else []
  {
    hide TrimSpace, Trimmed, NormalizeAccessMode, NormalizeWafMode, ValidWafMode, NormalizeList;
    DetectionMode();
    NothingNormalized();
    if h.waf.Some? { WafMode(h.waf.value.mode); }
  }

  lemma NothingNormalized()
    ensures NormalizeList([]) == []
  {
  }

  /** A host profile written from a desired host exports to a valid host with no difference. */
  lemma HostRoundTrip(ip: string -> bool, h: Host)
    requires ValidHost(ip, h)
    ensures ValidHost(ip, ExportHost(ProfileOf(h))) && DiffHost(ExportHost(ProfileOf(h)), h) == []
  {
    AccessMode(h.accessMode);
    WafRoundTrip(h);
    var waf := NormalizeWaf(h.waf);
    EqualStringsReflexive(waf.ipAllowlist);
    EqualStringsReflexive(waf.customRules);
    NoAddresses(ip);
    hide TrimSpace, Trimmed, NormalizeAccessMode, NormalizeWafMode, ValidAccessMode, ValidWafMode, ValidAddresses,
         NormalizeWaf, EqualStrings;
  }

  lemma NoAddresses(ip: string -> bool)
    ensures ValidAddresses(ip, [])
  {
  }
}
