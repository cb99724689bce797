/** What the planner reports as changed (diffDeployment, diffRegistry and diffHost): a field is listed
    exactly when the normal forms of its two values differ. */
module Differences {
  import opened Text
  import opened ConfigV1
  import opened Plan
  import Store

  // ---------------------------------------------------------------- normal forms

  function TrimmedAll(list: seq<string>): (r: seq<string>)
    ensures |r| == |list| && forall i :: 0 <= i < |list| ==> r[i] == TrimSpace(list[i])
  {
    seq(|list|, i requires 0 <= i < |list| => TrimSpace(list[i]))
  }

  function TrimmedMount(m: VolumeMount): VolumeMount {
    VolumeMount(TrimSpace(m.mode), TrimSpace(m.source), TrimSpace(m.target), m.uid, m.gid, TrimSpace(m.dirMode))
  }

  function TrimmedMounts(list: seq<VolumeMount>): (r: seq<VolumeMount>)
    ensures |r| == |list| && forall i :: 0 <= i < |list| ==> r[i] == TrimmedMount(list[i])
  {
    seq(|list|, i requires 0 <= i < |list| => TrimmedMount(list[i]))
  }

  function TrimmedSecurity(s: Security): Security {
    Store.Security(s.wafEnabled, TrimSpace(s.wafMode), TrimmedAll(s.ipDenylist), TrimmedAll(s.ipAllowlist),
                   TrimmedAll(s.customRules))
  }

  /** Secrets cannot be told apart behind placeholders. */
  predicate SameSecret(a: string, b: string) {
    TrimSpace(a) == TrimSpace(b) || (IsPlaceholder(a) && IsPlaceholder(b))
  }

  ghost predicate SameEnv(a: map<string, string>, b: map<string, string>) {
    a.Keys == b.Keys && forall k :: k in a ==>
      TrimSpace(a[k]) == TrimSpace(b[k]) || (Sensitive(k) && IsPlaceholder(a[k]) && IsPlaceholder(b[k]))
  }

  predicate SameUsers(a: Option<seq<User>>, b: Option<seq<User>>) {
    && a.Some? == b.Some?
    && (a.Some? ==> |a.value| == |b.value| && forall i :: 0 <= i < |a.value| ==>
          TrimSpace(a.value[i].username) == TrimSpace(b.value[i].username) &&
          SameSecret(a.value[i].password, b.value[i].password))
  }

  predicate SameSecurity(a: Option<Security>, b: Option<Security>) {
    a.Some? == b.Some? && (a.Some? ==> TrimmedSecurity(a.value) == TrimmedSecurity(b.value))
  }

  // ---------------------------------------------------------------- the comparisons

  lemma EqualStringsExactly(a: seq<string>, b: seq<string>)
    ensures EqualStrings(a, b) <==> TrimmedAll(a) == TrimmedAll(b)
  {
    hide TrimSpace;
    if TrimmedAll(a) == TrimmedAll(b) {
      forall i | 0 <= i < |a| ensures TrimSpace(a[i]) == TrimSpace(b[i]) {
        assert TrimmedAll(a)[i] == TrimmedAll(b)[i];
      }
    }
  }

  lemma EqualMountsExactly(a: seq<VolumeMount>, b: seq<VolumeMount>)
    ensures EqualMounts(a, b) <==> TrimmedMounts(a) == TrimmedMounts(b)
  {
    hide TrimSpace;
    if TrimmedMounts(a) == TrimmedMounts(b) {
      forall i | 0 <= i < |a| ensures EqualMount(a[i], b[i]) {
        assert TrimmedMounts(a)[i] == TrimmedMounts(b)[i];
      }
    }
  }

  lemma EqualEnvExactly(a: map<string, string>, b: map<string, string>)
    ensures EqualEnv(a, b) <==> SameEnv(a, b)
  {
    hide TrimSpace, IsPlaceholder, Sensitive;
    assert SameEnv(a, b) ==> |a.Keys| == |b.Keys|;
    if EqualEnv(a, b) {
      assert a.Keys <= b.Keys && |b.Keys - a.Keys| == 0 by {
        assert b.Keys == a.Keys + (b.Keys - a.Keys);
        assert |a.Keys| == |a| && |b.Keys| == |b|;
      }
    }
  }

  lemma EqualUsersExactly(a: Option<seq<User>>, b: Option<seq<User>>)
    ensures EqualBasicAuth(a, b) <==> SameUsers(a, b)
  {
    hide TrimSpace, IsPlaceholder;
  }

  lemma EqualSecurityExactly(a: Option<Security>, b: Option<Security>)
    ensures EqualSecurity(a, b) <==> SameSecurity(a, b)
  {
    hide TrimSpace, EqualStrings, TrimmedAll;
    if a.Some? && b.Some? {
      EqualStringsExactly(a.value.ipDenylist, b.value.ipDenylist);
      EqualStringsExactly(a.value.ipAllowlist, b.value.ipAllowlist);
      EqualStringsExactly(a.value.customRules, b.value.customRules);
    }
  }

  // ---------------------------------------------------------------- deployments and registries

  ghost predicate DeploymentDiffers(live: Deployment, desired: Deployment, field: string) {
    || (field == "basicAuth" && !SameUsers(live.basicAuth, desired.basicAuth))
    || (field == "domain" && TrimSpace(live.domain) != TrimSpace(desired.domain))
    || (field == "env" && !SameEnv(live.env, desired.env))
    || (field == "image" && TrimSpace(live.image) != TrimSpace(desired.image))
    || (field == "ports" && TrimmedAll(live.ports) != TrimmedAll(desired.ports))
    || (field == "proxyPort" && live.proxyPort != desired.proxyPort)
    || (field == "public" && live.isPublic != desired.isPublic)
    || (field == "security" && !SameSecurity(live.security, desired.security))
    || (field == "volumeMounts" && TrimmedMounts(live.volumeMounts) != TrimmedMounts(desired.volumeMounts))
  }

  lemma InIfChanged(same: bool, name: string, field: string)
    ensures field in IfChanged(same, name) <==> !same && field == name
  {
  }

  /** A field of a deployment is listed exactly when its normal form differs; nothing else is. */
  lemma DeploymentDiffExactly(live: Deployment, desired: Deployment, field: string)
    ensures field in DiffDeployment(live, desired) <==> DeploymentDiffers(live, desired, field)
  {
    hide TrimSpace, TrimmedAll, TrimmedMounts, SameUsers, SameEnv, SameSecurity, EqualBasicAuth, EqualEnv,
         EqualStrings, EqualSecurity, EqualMounts, IfChanged;
    EqualUsersExactly(live.basicAuth, desired.basicAuth);
    EqualEnvExactly(live.env, desired.env);
    EqualStringsExactly(live.ports, desired.ports);
    EqualSecurityExactly(live.security, desired.security);
    EqualMountsExactly(live.volumeMounts, desired.volumeMounts);
    InIfChanged(EqualBasicAuth(live.basicAuth, desired.basicAuth), "basicAuth", field);
    InIfChanged(TrimSpace(live.domain) == TrimSpace(desired.domain), "domain", field);
    InIfChanged(EqualEnv(live.env, desired.env), "env", field);
    InIfChanged(TrimSpace(live.image) == TrimSpace(desired.image), "image", field);
    InIfChanged(EqualStrings(live.ports, desired.ports), "ports", field);
    InIfChanged(live.proxyPort == desired.proxyPort, "proxyPort", field);
    InIfChanged(live.isPublic == desired.isPublic, "public", field);
    InIfChanged(EqualSecurity(live.security, desired.security), "security", field);
    InIfChanged(EqualMounts(live.volumeMounts, desired.volumeMounts), "volumeMounts", field);
  }

  predicate RegistryDiffers(live: Registry, desired: Registry, field: string) {
    || (field == "password" && !SameSecret(live.password, desired.password))
    || (field == "username" && TrimSpace(live.username) != TrimSpace(desired.username))
  }

  lemma RegistryDiffExactly(live: Registry, desired: Registry, field: string)
    ensures field in DiffRegistry(live, desired) <==> RegistryDiffers(live, desired, field)
  {
    hide TrimSpace, IsPlaceholder, IfChanged;
    InIfChanged(EqualSecret(live.password, desired.password), "password", field);
    InIfChanged(TrimSpace(live.username) == TrimSpace(desired.username), "username", field);
  }

  // ---------------------------------------------------------------- the host

  /** Only these two modes, in any case and with white space around them, differ from the default. */
  predicate SameAccess(a: string, b: string) {
    var x, y := ToLower(TrimSpace(a)), ToLower(TrimSpace(b));
    (x == "waf_only" <==> y == "waf_only") && (x == "waf_and_login" <==> y == "waf_and_login")
  }

  predicate Enforces(waf: Option<Waf>) { waf.Some? && ToLower(TrimSpace(waf.value.mode)) == "enforcement" }

  /** The trimmed texts of a list without the blank ones, in order. */
  function NonBlank(list: seq<string>): seq<string> {
    if list == [] then []
    else
      var last := TrimSpace(list[|list| - 1]);
      NonBlank(list[..|list| - 1]) + (if last == "" then [] else [last])
  }

  predicate SameWaf(a: Option<Waf>, b: Option<Waf>) {
    && (Enforces(a) <==> Enforces(b))
    && NonBlank(AllowlistOf(a)) == NonBlank(AllowlistOf(b)) && NonBlank(RulesOf(a)) == NonBlank(RulesOf(b))
  }

  function AllowlistOf(waf: Option<Waf>): seq<string> { if waf.Some? then waf.value.ipAllowlist else [] }

  function RulesOf(waf: Option<Waf>): seq<string> { if waf.Some? then waf.value.customRules else [] }

  lemma {:induction false} NormalizeListAppend(list: seq<string>, s: string)
    ensures NormalizeList(list + [s]) == NormalizeList(list) + (if TrimSpace(s) == "" then [] else [TrimSpace(s)])
  {
    hide TrimSpace;
    if list == [] {
      assert [s][1..] == [] && list + [s] == [s];
    } else {
      assert (list + [s])[1..] == list[1..] + [s];
      NormalizeListAppend(list[1..], s);
    }
  }

  lemma {:induction false} NormalizeListIsNonBlank(list: seq<string>)
    ensures NormalizeList(list) == NonBlank(list)
  {
    hide TrimSpace, NormalizeList;
    if list == [] {
      NothingNormalized();
    } else {
      var front, last := list[..|list| - 1], list[|list| - 1];
      assert list == front + [last];
      NormalizeListIsNonBlank(front);
      NormalizeListAppend(front, last);
    }
  }

  lemma NothingNormalized()
    ensures NormalizeList([]) == []
  {
  }

  lemma TrimmedListsCompare(a: seq<string>, b: seq<string>)
    ensures EqualStrings(NonBlank(a), NonBlank(b)) <==> NonBlank(a) == NonBlank(b)
  {
    hide TrimSpace, NonBlank;
    NonBlankTrimmed(a);
    NonBlankTrimmed(b);
    EqualStringsExactly(NonBlank(a), NonBlank(b));
  }

  lemma {:induction false} NonBlankTrimmed(list: seq<string>)
    ensures TrimmedAll(NonBlank(list)) == NonBlank(list)
  {
    hide TrimLeft, TrimRight;
    if list != [] { NonBlankTrimmed(list[..|list| - 1]); }
  }

  lemma EqualWafExactly(a: Option<Waf>, b: Option<Waf>)
    ensures EqualWaf(NormalizeWaf(a), NormalizeWaf(b)) <==> SameWaf(a, b)
  {
    WafForm(a);
    WafForm(b);
    WafModes();
    hide TrimSpace, NonBlank, NormalizeWaf, EqualStrings, AllowlistOf, RulesOf, Enforces;
    TrimmedListsCompare(AllowlistOf(a), AllowlistOf(b));
    TrimmedListsCompare(RulesOf(a), RulesOf(b));
  }

  lemma WafModes()
    ensures "enforcement" != "detection"
  {
    assert |"enforcement"| != |"detection"|;
  }

  lemma WafForm(waf: Option<Waf>)
    ensures NormalizeWaf(waf) == Waf(if Enforces(waf) then "enforcement" else "detection",
                                     NonBlank(AllowlistOf(waf)), NonBlank(RulesOf(waf)))
  {
    hide TrimSpace;
    NormalizeListIsNonBlank(AllowlistOf(waf));
    NormalizeListIsNonBlank(RulesOf(waf));
  }

  lemma AccessExactly(a: string, b: string)
    ensures NormalizeAccessMode(a) == NormalizeAccessMode(b) <==> SameAccess(a, b)
  {
    hide TrimSpace;
    assert |"waf_only"| == 8 && |"waf_and_login"| == 13 && |"login_only"| == 10;
  }

  ghost predicate HostDiffers(live: Host, desired: Host, field: string) {
    || (field == "dashboardAccessMode" && !SameAccess(live.accessMode, desired.accessMode))
    || (field == "dashboardWaf" && !SameWaf(live.waf, desired.waf))
    || (field == "displayName" && TrimSpace(live.displayName) != TrimSpace(desired.displayName))
  }

  lemma HostDiffExactly(live: Host, desired: Host, field: string)
    ensures field in DiffHost(live, desired) <==> HostDiffers(live, desired, field)
  {
    hide TrimSpace, SameAccess, SameWaf, NormalizeAccessMode, NormalizeWaf, EqualWaf, IfChanged;
    AccessExactly(live.accessMode, desired.accessMode);
    EqualWafExactly(live.waf, desired.waf);
    InIfChanged(NormalizeAccessMode(live.accessMode) == NormalizeAccessMode(desired.accessMode), "dashboardAccessMode",
                field);
    InIfChanged(EqualWaf(NormalizeWaf(live.waf), NormalizeWaf(desired.waf)), "dashboardWaf", field);
    InIfChanged(TrimSpace(live.displayName) == TrimSpace(desired.displayName), "displayName", field);
  }
}
