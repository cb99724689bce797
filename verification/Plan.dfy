/** The planner (api/internal/configplan/plan.go): the difference between a desired and a live
    document as lists of creates, updates, deletes and no-ops. */
module Plan {
  import opened Text
  import opened Ordering
  import opened ConfigV1

  // ---------------------------------------------------------------- field comparison

  predicate EqualSecret(a: string, b: string) {
    (IsPlaceholder(a) && IsPlaceholder(b)) || TrimSpace(a) == TrimSpace(b)
  }

  predicate EqualStrings(a: seq<string>, b: seq<string>) {
    |a| == |b| && forall i :: 0 <= i < |a| ==> TrimSpace(a[i]) == TrimSpace(b[i])
  }

  predicate EqualEnvValue(key: string, a: string, b: string) {
    if Sensitive(key) then EqualSecret(a, b) else TrimSpace(a) == TrimSpace(b)
  }

  predicate EqualEnv(a: map<string, string>, b: map<string, string>) {
    |a| == |b| && forall k :: k in a ==> k in b && EqualEnvValue(k, a[k], b[k])
  }

  predicate EqualMount(a: VolumeMount, b: VolumeMount) {
    && TrimSpace(a.mode) == TrimSpace(b.mode) && TrimSpace(a.source) == TrimSpace(b.source)
    && TrimSpace(a.target) == TrimSpace(b.target) && a.uid == b.uid && a.gid == b.gid
    && TrimSpace(a.dirMode) == TrimSpace(b.dirMode)
  }

  predicate EqualMounts(a: seq<VolumeMount>, b: seq<VolumeMount>) {
    |a| == |b| && forall i :: 0 <= i < |a| ==> EqualMount(a[i], b[i])
  }

  predicate EqualUsers(a: seq<User>, b: seq<User>) {
    |a| == |b| && forall i :: 0 <= i < |a| ==>
      TrimSpace(a[i].username) == TrimSpace(b[i].username) && EqualSecret(a[i].password, b[i].password)
  }

  predicate EqualBasicAuth(a: Option<seq<User>>, b: Option<seq<User>>) {
    match (a, b)
    case (None, None) => true
    case (Some(x), Some(y)) => EqualUsers(x, y)
    case _ => false
  }

  predicate EqualSecurity(a: Option<Security>, b: Option<Security>) {
    match (a, b)
    case (None, None) => true
    case (Some(x), Some(y)) =>
      && x.wafEnabled == y.wafEnabled && TrimSpace(x.wafMode) == TrimSpace(y.wafMode)
      && EqualStrings(x.ipDenylist, y.ipDenylist) && EqualStrings(x.ipAllowlist, y.ipAllowlist)
      && EqualStrings(x.customRules, y.customRules)
    case _ => false
  }

  function IfChanged(same: bool, field: string): seq<string> { if same then [] else [field] }

  /** diffDeployment: the names of the differing fields, sorted. fileMounts are not compared. */
  function DiffDeployment(live: Deployment, desired: Deployment): seq<string> {
    IfChanged(EqualBasicAuth(live.basicAuth, desired.basicAuth), "basicAuth") +
    IfChanged(TrimSpace(live.domain) == TrimSpace(desired.domain), "domain") +
    IfChanged(EqualEnv(live.env, desired.env), "env") +
    IfChanged(TrimSpace(live.image) == TrimSpace(desired.image), "image") +
    IfChanged(EqualStrings(live.ports, desired.ports), "ports") +
    IfChanged(live.proxyPort == desired.proxyPort, "proxyPort") +
    IfChanged(live.isPublic == desired.isPublic, "public") +
    IfChanged(EqualSecurity(live.security, desired.security), "security") +
    IfChanged(EqualMounts(live.volumeMounts, desired.volumeMounts), "volumeMounts")
  }

  function DiffRegistry(live: Registry, desired: Registry): seq<string> {
    IfChanged(EqualSecret(live.password, desired.password), "password") +
    IfChanged(TrimSpace(live.username) == TrimSpace(desired.username), "username")
  }

  function NormalizeAccessMode(mode: string): string {
    var m := ToLower(TrimSpace(mode));
    if m == "waf_only" || m == "waf_and_login" then m else "login_only"
  }

  function NormalizeWafMode(mode: string): string {
    if ToLower(TrimSpace(mode)) == "enforcement" then "enforcement" else "detection"
  }

  /** normalizeStringList */
  function NormalizeList(list: seq<string>): seq<string> {
    if list == [] then []
    else (if TrimSpace(list[0]) == "" then [] else [TrimSpace(list[0])]) + NormalizeList(list[1..])
  }

  function NormalizeWaf(waf: Option<Waf>): Waf {
    match waf
    case None => Waf("detection", [], [])
    case Some(w) => Waf(NormalizeWafMode(w.mode), NormalizeList(w.ipAllowlist), NormalizeList(w.customRules))
  }

  predicate EqualWaf(a: Waf, b: Waf) {
    a.mode == b.mode && EqualStrings(a.ipAllowlist, b.ipAllowlist) && EqualStrings(a.customRules, b.customRules)
  }

  function DiffHost(live: Host, desired: Host): seq<string> {
    IfChanged(NormalizeAccessMode(live.accessMode) == NormalizeAccessMode(desired.accessMode), "dashboardAccessMode") +
    IfChanged(EqualWaf(NormalizeWaf(live.waf), NormalizeWaf(desired.waf)), "dashboardWaf") +
    IfChanged(TrimSpace(live.displayName) == TrimSpace(desired.displayName), "displayName")
  }

  // ---------------------------------------------------------------- the plan of one resource type

  datatype Change = Change(resource: string, changes: seq<string>)

  datatype Actions = Actions(create: seq<Change>, update: seq<Change>, delete: seq<Change>, noop: seq<Change>)

  function Select(names: seq<string>, f: string -> Option<Change>): seq<Change> {
    if names == [] then []
    else (if f(names[0]).Some? then [f(names[0]).value] else []) + Select(names[1..], f)
  }

  lemma {:induction false} SelectMembers(names: seq<string>, f: string -> Option<Change>, c: Change)
    ensures c in Select(names, f) <==> exists n :: n in names && f(n) == Some(c)
  {
    if names != [] {
      SelectMembers(names[1..], f, c);
      forall n | n in names ensures n == names[0] || n in names[1..] {}
    }
  }

  lemma {:induction false} SelectAppend(names: seq<string>, n: string, f: string -> Option<Change>)
    ensures Select(names + [n], f) == Select(names, f) + (if f(n).Some? then [f(n).value] else [])
  {
    var last := if f(n).Some? then [f(n).value] else [];
    if names == [] {
      assert names + [n] == [n] && [n][1..] == [];
      assert last + [] == [] + last;
    } else {
      var head, rest := if f(names[0]).Some? then [f(names[0]).value] else [], Select(names[1..], f);
      SelectAppend(names[1..], n, f);
      assert (names + [n])[0] == names[0] && (names + [n])[1..] == names[1..] + [n];
      assert head + (rest + last) == (head + rest) + last;
    }
  }

  function CreateOf<T>(desired: map<string, T>, live: map<string, T>): string -> Option<Change> {
    n => if n in desired && n !in live then Some(Change(n, [])) else None
  }

  function UpdateOf<T>(desired: map<string, T>, live: map<string, T>, diff: (T, T) -> seq<string>)
    : string -> Option<Change>
  {
    n => if n in desired && n in live && diff(live[n], desired[n]) != []
         then Some(Change(n, diff(live[n], desired[n]))) else None
  }

  function NoopOf<T>(desired: map<string, T>, live: map<string, T>, diff: (T, T) -> seq<string>)
    : string -> Option<Change>
  {
    n => if n in desired && n in live && diff(live[n], desired[n]) == [] then Some(Change(n, [])) else None
  }

  function DeleteOf<T>(desired: map<string, T>, live: map<string, T>): string -> Option<Change> {
    n => if n in live && n !in desired then Some(Change(n, [])) else None
  }

  ghost function PlanActions<T>(desired: map<string, T>, live: map<string, T>, diff: (T, T) -> seq<string>): Actions {
    var names := KeysInOrder(desired.Keys);
    Actions(Select(names, CreateOf(desired, live)), Select(names, UpdateOf(desired, live, diff)),
            Select(KeysInOrder(live.Keys), DeleteOf(desired, live)), Select(names, NoopOf(desired, live, diff)))
  }

  /** The first loop of planningDeployments and planningRegistries: the desired names. */
  method PlanDesired<T>(desired: map<string, T>, live: map<string, T>, diff: (T, T) -> seq<string>, names: seq<string>)
    returns (create: seq<Change>, update: seq<Change>, noop: seq<Change>)
    requires forall n :: n in names ==> n in desired
    ensures create == Select(names, CreateOf(desired, live))
    ensures update == Select(names, UpdateOf(desired, live, diff))
    ensures noop == Select(names, NoopOf(desired, live, diff))
  {
    create, update, noop := [], [], [];
    for i := 0 to |names|
      invariant create == Select(names[..i], CreateOf(desired, live))
      invariant update == Select(names[..i], UpdateOf(desired, live, diff))
      invariant noop == Select(names[..i], NoopOf(desired, live, diff))
    {
      var n := names[i];
      assert names[..i + 1] == names[..i] + [n];
      SelectAppend(names[..i], n, CreateOf(desired, live));
      SelectAppend(names[..i], n, UpdateOf(desired, live, diff));
      SelectAppend(names[..i], n, NoopOf(desired, live, diff));
      if n !in live {
        create := create + [Change(n, [])];
      } else {
        var changes := diff(live[n], desired[n]);
        if changes == [] { noop := noop + [Change(n, [])]; } else { update := update + [Change(n, changes)]; }
      }
    }
    assert names[..|names|] == names;
  }

  /** The second loop: live names that are not desired. */
  method PlanDeletes<T>(desired: map<string, T>, live: map<string, T>, names: seq<string>) returns (delete: seq<Change>)
    requires forall n :: n in names ==> n in live
    ensures delete == Select(names, DeleteOf(desired, live))
  {
    delete := [];
    for i := 0 to |names|
      invariant delete == Select(names[..i], DeleteOf(desired, live))
    {
      var n := names[i];
      assert names[..i + 1] == names[..i] + [n];
      SelectAppend(names[..i], n, DeleteOf(desired, live));
      if n !in desired { delete := delete + [Change(n, [])]; }
    }
    assert names[..|names|] == names;
  }

  /** planningDeployments and planningRegistries: drift is updates then deletes, and only deletes
      are destructive. */
  method RunPlanActions<T>(desired: map<string, T>, live: map<string, T>, diff: (T, T) -> seq<string>)
    returns (actions: Actions, drift: seq<Change>, destructive: seq<Change>)
    ensures actions == PlanActions(desired, live, diff)
    ensures drift == actions.update + actions.delete && destructive == actions.delete
  {
    hide Select, AreSortedKeys;
    var names := SortedKeys(desired.Keys);
    KeysAreKeys(names, desired.Keys);
    var create, update, noop := PlanDesired(desired, live, diff, names);
    var liveNames := SortedKeys(live.Keys);
    KeysAreKeys(liveNames, live.Keys);
    var delete := PlanDeletes(desired, live, liveNames);
    actions, drift, destructive := Actions(create, update, delete, noop), update + delete, delete;
  }

  lemma KeysAreKeys(names: seq<string>, keys: set<string>)
    requires AreSortedKeys(names, keys)
    ensures names == KeysInOrder(keys) && forall n :: n in names ==> n in keys
  {
    SortedKeysUnique(names, KeysInOrder(keys), keys);
  }

  /** Which list a name is in, and with which changes. */
  lemma PlanMembers<T>(desired: map<string, T>, live: map<string, T>, diff: (T, T) -> seq<string>, c: Change)
    ensures var a := PlanActions(desired, live, diff); var n := c.resource;
            && (c in a.create <==> n in desired && n !in live && c.changes == [])
            && (c in a.update <==>
                n in desired && n in live && diff(live[n], desired[n]) == c.changes && c.changes != [])
            && (c in a.noop <==> n in desired && n in live && diff(live[n], desired[n]) == [] && c.changes == [])
            && (c in a.delete <==> n in live && n !in desired && c.changes == [])
  {
    var names, liveNames, n := KeysInOrder(desired.Keys), KeysInOrder(live.Keys), c.resource;
    SelectMembers(names, CreateOf(desired, live), c);
    SelectMembers(names, UpdateOf(desired, live, diff), c);
    SelectMembers(names, NoopOf(desired, live, diff), c);
    SelectMembers(liveNames, DeleteOf(desired, live), c);
    assert n in desired ==> n in names;
    assert n in live ==> n in liveNames;
  }

  predicate Mentions(list: seq<Change>, n: string) { exists c :: c in list && c.resource == n }

  /** Every desired or live name is in exactly one of the four lists; no other name is in any. */
  lemma PlanPartitions<T>(desired: map<string, T>, live: map<string, T>, diff: (T, T) -> seq<string>, n: string)
    ensures var a := PlanActions(desired, live, diff);
            && (Mentions(a.create, n) <==> n in desired && n !in live)
            && (Mentions(a.delete, n) <==> n in live && n !in desired)
            && (Mentions(a.update, n) <==> n in desired && n in live && diff(live[n], desired[n]) != [])
            && (Mentions(a.noop, n) <==> n in desired && n in live && diff(live[n], desired[n]) == [])
  {
    hide PlanActions;
    var a := PlanActions(desired, live, diff);
    var changes := if n in desired && n in live then diff(live[n], desired[n]) else [];
    PlanMembers(desired, live, diff, Change(n, []));
    PlanMembers(desired, live, diff, Change(n, changes));
    forall c | c in a.create || c in a.update || c in a.noop || c in a.delete
      ensures c == Change(c.resource, c.changes)
    {
      PlanMembers(desired, live, diff, c);
    }
    forall c: Change | c.resource == n ensures
      && (c in a.create ==> n in desired && n !in live) && (c in a.delete ==> n in live && n !in desired)
      && (c in a.update ==> n in desired && n in live && diff(live[n], desired[n]) != [])
      && (c in a.noop ==> n in desired && n in live && diff(live[n], desired[n]) == [])
    {
      PlanMembers(desired, live, diff, c);
    }
  }

  lemma {:induction false} DesiredAddUp<T>(names: seq<string>, desired: map<string, T>, live: map<string, T>,
                                           diff: (T, T) -> seq<string>)
    requires forall n :: n in names ==> n in desired
    ensures |Select(names, CreateOf(desired, live))| + |Select(names, UpdateOf(desired, live, diff))| +
            |Select(names, NoopOf(desired, live, diff))| == |names|
  {
    if names != [] {
      assert forall n :: n in names[1..] ==> n in names;
      assert names[0] in names;
      DesiredAddUp(names[1..], desired, live, diff);
    }
  }

  /** Of distinct names, as many are selected as the selection function chooses. */
  lemma {:induction false} SelectCount(names: seq<string>, f: string -> Option<Change>, chosen: set<string>)
    requires DistinctBy(Self, names) && (forall n :: n in chosen ==> n in names)
    requires forall n :: n in names ==> (f(n).Some? <==> n in chosen)
    ensures |Select(names, f)| == |chosen|
  {
    if names == [] {
      assert chosen == {};
    } else {
      var first, rest := names[0], names[1..];
      TailIsDistinct(names);
      SelectCount(rest, f, chosen - {first});
    }
  }

  lemma TailIsDistinct(names: seq<string>)
    requires DistinctBy(Self, names) && names != []
    ensures DistinctBy(Self, names[1..]) && forall n :: n in names[1..] <==> n in names && n != names[0]
  {
    forall i, j | 0 <= i < j < |names[1..]| ensures Self(names[1..][i]) != Self(names[1..][j]) {
      assert Self(names[i + 1]) != Self(names[j + 1]);
    }
    forall i | 0 <= i < |names[1..]| ensures names[1..][i] != names[0] { assert Self(names[0]) != Self(names[i + 1]); }
    assert names == [names[0]] + names[1..];
  }

  /** Every desired or live name is counted exactly once. */
  lemma ActionsAddUp<T>(desired: map<string, T>, live: map<string, T>, diff: (T, T) -> seq<string>)
    ensures var a := PlanActions(desired, live, diff);
            |a.create| + |a.update| + |a.delete| + |a.noop| == |desired.Keys + live.Keys|
  {
    hide Select, AreSortedKeys, KeysInOrder, CreateOf, UpdateOf, NoopOf, DeleteOf;
    KeysInOrderAre(desired.Keys);
    DesiredAddUp(KeysInOrder(desired.Keys), desired, live, diff);
    DeletesAddUp(desired, live);
    UnionSize(desired.Keys, live.Keys);
  }

  lemma UnionSize(a: set<string>, b: set<string>)
    ensures |a + b| == |a| + |b - a|
  {
    assert a + b == a + (b - a);
  }

  lemma KeysInOrderAre(s: set<string>)
    ensures |KeysInOrder(s)| == |s| && DistinctBy(Self, KeysInOrder(s)) && forall n :: n in KeysInOrder(s) <==> n in s
  {
    hide Leq, Select;
    var f: string -> Option<Change> := n => Some(Change(n, []));
    SortedAreDistinct(KeysInOrder(s));
    SelectCount(KeysInOrder(s), f, s);
    AllSelected(KeysInOrder(s), f);
  }

  lemma DeletesAddUp<T>(desired: map<string, T>, live: map<string, T>)
    ensures |Select(KeysInOrder(live.Keys), DeleteOf(desired, live))| == |live.Keys - desired.Keys|
  {
    hide Leq, Select, AreSortedKeys;
    KeysInOrderAre(live.Keys);
    SelectCount(KeysInOrder(live.Keys), DeleteOf(desired, live), live.Keys - desired.Keys);
  }

  lemma {:induction false} AllSelected(names: seq<string>, f: string -> Option<Change>)
    requires forall n :: n in names ==> f(n).Some?
    ensures |Select(names, f)| == |names|
  {
    if names != [] {
      assert forall n :: n in names[1..] ==> n in names;
      assert names[0] in names;
      AllSelected(names[1..], f);
    }
  }

  lemma SortedAreDistinct(names: seq<string>)
    requires StrictlySortedBy(Self, names)
    ensures DistinctBy(Self, names)
  {
    hide Leq;
    forall i, j | 0 <= i < j < |names|
      ensures Self(names[i]) != Self(names[j])
    {
      assert Less(Self(names[i]), Self(names[j]));
    }
  }

  // ---------------------------------------------------------------- domain conflicts

  datatype Conflict = Conflict(resource: string, domain: string, owner: string)

  /** liveByDomain: the first live deployment, in map order, that claims each non-blank domain. */
  function DomainOwners(order: seq<string>, live: map<string, Deployment>): map<string, string>
    requires forall n :: n in order ==> n in live
  {
    if order == [] then map[]
    else
      var n := order[|order| - 1];
      var before := DomainOwners(order[..|order| - 1], live);
      var domain := TrimSpace(live[n].domain);
      if domain == "" || domain in before then before else before[domain := n]
  }

  function ConflictOf(desired: map<string, Deployment>, owners: map<string, string>, n: string): Option<Conflict> {
    if n !in desired then None
    else
      var domain := TrimSpace(desired[n].domain);
      if domain == "" || domain !in owners || owners[domain] == n || owners[domain] !in desired then None
      else Some(Conflict(n, domain, owners[domain]))
  }

  /** The conflicts, sorted by resource. */
  function ConflictsOf(names: seq<string>, desired: map<string, Deployment>, owners: map<string, string>)
    : seq<Conflict>
  {
    if names == [] then []
    else
      var c := ConflictOf(desired, owners, names[|names| - 1]);
      ConflictsOf(names[..|names| - 1], desired, owners) + (if c.Some? then [c.value] else [])
  }

  /** A map order of the keys. */
  ghost predicate Enumerates(order: seq<string>, keys: set<string>) {
    DistinctBy(Self, order) && forall n :: n in order <==> n in keys
  }

  ghost predicate DistinctDomains(live: map<string, Deployment>) {
    forall a, b :: a in live && b in live && a != b && TrimSpace(live[a].domain) != "" ==>
      TrimSpace(live[a].domain) != TrimSpace(live[b].domain)
  }

  lemma {:induction false} OwnersSound(order: seq<string>, live: map<string, Deployment>)
    requires forall n :: n in order ==> n in live
    ensures var o := DomainOwners(order, live);
            && (forall d :: d in o ==> d != "" && o[d] in order && TrimSpace(live[o[d]].domain) == d)
            && (forall n :: n in order && TrimSpace(live[n].domain) != "" ==> TrimSpace(live[n].domain) in o)
  {
    hide TrimSpace, Trimmed;
    if order != [] {
      var last := order[|order| - 1];
      OwnersSound(order[..|order| - 1], live);
      forall n | n in order ensures n == last || n in order[..|order| - 1] {
        var i :| 0 <= i < |order| && order[i] == n;
        if i < |order| - 1 { assert order[..|order| - 1][i] == n; }
      }
    }
  }

  lemma OwnersWithin(a: seq<string>, b: seq<string>, live: map<string, Deployment>, d: string)
    requires Enumerates(a, live.Keys) && Enumerates(b, live.Keys) && DistinctDomains(live)
    requires d in DomainOwners(a, live)
    ensures d in DomainOwners(b, live) && DomainOwners(b, live)[d] == DomainOwners(a, live)[d]
  {
    OwnersSound(a, live);
    OwnersSound(b, live);
    var n := DomainOwners(a, live)[d];
    assert n in a && n in live && n in b;
    assert TrimSpace(live[n].domain) == d;
  }

  /** With distinct live domains the owners do not depend on the map order. */
  lemma OwnersIgnoreOrder(a: seq<string>, b: seq<string>, live: map<string, Deployment>)
    requires Enumerates(a, live.Keys) && Enumerates(b, live.Keys) && DistinctDomains(live)
    ensures DomainOwners(a, live) == DomainOwners(b, live)
  {
    var x, y := DomainOwners(a, live), DomainOwners(b, live);
    forall d | d in x ensures d in y && y[d] == x[d] { OwnersWithin(a, b, live, d); }
    forall d | d in y ensures d in x && x[d] == y[d] { OwnersWithin(b, a, live, d); }
    assert x.Keys == y.Keys;
  }

  /** The first deployment in map order that claims a domain owns it. */
  lemma {:induction false} FirstClaims(order: seq<string>, live: map<string, Deployment>)
    requires order != [] && (forall n :: n in order ==> n in live) && TrimSpace(live[order[0]].domain) != ""
    ensures var domain := TrimSpace(live[order[0]].domain);
            domain in DomainOwners(order, live) && DomainOwners(order, live)[domain] == order[0]
  {
    hide TrimSpace, Trimmed;
    if |order| > 1 { FirstClaims(order[..|order| - 1], live); }
  }

  lemma OrderFrom(keys: set<string>, n: string) returns (order: seq<string>)
    requires n in keys
    ensures Enumerates(order, keys) && order != [] && order[0] == n
  {
    var rest := KeysInOrder(keys - {n});
    order := [n] + rest;
    hide Leq;
    forall i, j | 0 <= i < j < |order| ensures Self(order[i]) != Self(order[j]) {
      if i == 0 { assert rest[j - 1] in rest; } else { assert Less(Self(rest[i - 1]), Self(rest[j - 1])); }
    }
  }

  /** The owners are the same for all map orders exactly when the live non-blank domains are distinct. */
  lemma OwnersIgnoreOrderExactly(live: map<string, Deployment>)
    ensures DistinctDomains(live) <==>
            forall a, b :: Enumerates(a, live.Keys) && Enumerates(b, live.Keys) ==>
              DomainOwners(a, live) == DomainOwners(b, live)
  {
    hide DomainOwners, TrimSpace, Trimmed;
    if DistinctDomains(live) {
      forall a, b | Enumerates(a, live.Keys) && Enumerates(b, live.Keys)
        ensures DomainOwners(a, live) == DomainOwners(b, live)
      {
        OwnersIgnoreOrder(a, b, live);
      }
    } else {
      var m, n :| m in live && n in live && m != n && TrimSpace(live[m].domain) != "" &&
                  TrimSpace(live[m].domain) == TrimSpace(live[n].domain);
      var a := OrderFrom(live.Keys, m);
      var b := OrderFrom(live.Keys, n);
      FirstClaims(a, live);
      FirstClaims(b, live);
      assert DomainOwners(a, live) != DomainOwners(b, live);
    }
  }

  lemma {:induction false} ConflictsMembers(names: seq<string>, desired: map<string, Deployment>,
                                            owners: map<string, string>, c: Conflict)
    ensures c in ConflictsOf(names, desired, owners) <==>
              c.resource in names && ConflictOf(desired, owners, c.resource) == Some(c)
  {
    if names != [] {
      var front, last := names[..|names| - 1], names[|names| - 1];
      ConflictsMembers(front, desired, owners, c);
      assert names == front + [last];
      ConflictNamesResource(desired, owners, last);
      hide ConflictOf;
      assert c.resource in names <==> c.resource in front || c.resource == last;
    }
  }

  lemma ConflictNamesResource(desired: map<string, Deployment>, owners: map<string, string>, n: string)
    ensures ConflictOf(desired, owners, n).Some? ==> ConflictOf(desired, owners, n).value.resource == n
  {
    hide TrimSpace;
  }

  /** c says that a desired deployment wants the domain of another live one that is to stay. */
  predicate RealConflict(desired: map<string, Deployment>, live: map<string, Deployment>, c: Conflict) {
    c.resource in desired && c.owner in desired && c.owner in live && c.owner != c.resource && c.domain != "" &&
    c.domain == TrimSpace(desired[c.resource].domain) && c.domain == TrimSpace(live[c.owner].domain)
  }

  /** Exactly the real conflicts with the first live deployment, in map order, on the domain are reported. */
  lemma ConflictsExactly(desired: map<string, Deployment>, live: map<string, Deployment>, order: seq<string>,
                         c: Conflict)
    requires Enumerates(order, live.Keys)
    ensures var owners := DomainOwners(order, live);
            c in ConflictsOf(KeysInOrder(desired.Keys), desired, owners) <==>
            RealConflict(desired, live, c) && c.domain in owners && owners[c.domain] == c.owner
  {
    ConflictsMembers(KeysInOrder(desired.Keys), desired, DomainOwners(order, live), c);
    OwnersSound(order, live);
    hide TrimSpace, Trimmed, ConflictsOf, DomainOwners, Leq;
  }

  /** No real conflict is about a domain that two live deployments share. */
  ghost predicate Unambiguous(desired: map<string, Deployment>, live: map<string, Deployment>) {
    forall c, m :: RealConflict(desired, live, c) && m in live && TrimSpace(live[m].domain) == c.domain ==> m == c.owner
  }

  /** The conflict that an unambiguous state reports for one name in one order it reports in every order. */
  lemma SameConflict(desired: map<string, Deployment>, live: map<string, Deployment>, a: seq<string>, b: seq<string>,
                     n: string)
    requires Enumerates(a, live.Keys) && Enumerates(b, live.Keys) && Unambiguous(desired, live)
    requires ConflictOf(desired, DomainOwners(a, live), n).Some?
    ensures ConflictOf(desired, DomainOwners(b, live), n) == ConflictOf(desired, DomainOwners(a, live), n)
  {
    hide TrimSpace, Trimmed, DomainOwners;
    OwnersSound(a, live);
    OwnersSound(b, live);
    var c := ConflictOf(desired, DomainOwners(a, live), n).value;
    assert RealConflict(desired, live, c);
    var owner := DomainOwners(b, live)[c.domain];
    assert owner in live && TrimSpace(live[owner].domain) == c.domain;
  }

  lemma {:induction false} SameConflicts(names: seq<string>, desired: map<string, Deployment>, x: map<string, string>,
                                         y: map<string, string>)
    requires forall n :: n in names ==> ConflictOf(desired, x, n) == ConflictOf(desired, y, n)
    ensures ConflictsOf(names, desired, x) == ConflictsOf(names, desired, y)
  {
    hide ConflictOf;
    if names != [] {
      assert forall n :: n in names[..|names| - 1] ==> n in names;
      assert names[|names| - 1] in names;
      SameConflicts(names[..|names| - 1], desired, x, y);
    }
  }

  lemma UnambiguousIgnoresOrder(desired: map<string, Deployment>, live: map<string, Deployment>, a: seq<string>,
                                b: seq<string>)
    requires Enumerates(a, live.Keys) && Enumerates(b, live.Keys) && Unambiguous(desired, live)
    ensures ConflictsOf(KeysInOrder(desired.Keys), desired, DomainOwners(a, live)) ==
            ConflictsOf(KeysInOrder(desired.Keys), desired, DomainOwners(b, live))
  {
    hide ConflictOf, DomainOwners, Unambiguous;
    var x, y := DomainOwners(a, live), DomainOwners(b, live);
    forall n ensures ConflictOf(desired, x, n) == ConflictOf(desired, y, n) {
      if ConflictOf(desired, x, n).Some? { SameConflict(desired, live, a, b, n); }
      if ConflictOf(desired, y, n).Some? { SameConflict(desired, live, b, a, n); }
    }
    SameConflicts(KeysInOrder(desired.Keys), desired, x, y);
  }

  /** Two live deployments on the domain of a real conflict: it is reported in one order and not in another. */
  lemma AmbiguousDependsOnOrder(desired: map<string, Deployment>, live: map<string, Deployment>, c: Conflict, m: string)
    returns (a: seq<string>, b: seq<string>)
    requires RealConflict(desired, live, c) && m in live && TrimSpace(live[m].domain) == c.domain && m != c.owner
    ensures Enumerates(a, live.Keys) && Enumerates(b, live.Keys)
    ensures c in ConflictsOf(KeysInOrder(desired.Keys), desired, DomainOwners(a, live))
    ensures c !in ConflictsOf(KeysInOrder(desired.Keys), desired, DomainOwners(b, live))
  {
    hide TrimSpace, Trimmed, DomainOwners, ConflictsOf;
    a := OrderFrom(live.Keys, c.owner);
    b := OrderFrom(live.Keys, m);
    FirstClaims(a, live);
    FirstClaims(b, live);
    ConflictsExactly(desired, live, a, c);
    ConflictsExactly(desired, live, b, c);
  }
}
