/** Build: the whole plan from two documents, and why it does not depend on the order in which the
    documents list their deployments, registries and basic-auth users. */
module Build {
  import opened Text
  import opened Ordering
  import opened Paths
  import opened ConfigV1
  import opened Plan

  function ByName(ds: seq<Deployment>): map<string, Deployment> {
    if ds == [] then map[] else ByName(ds[..|ds| - 1])[ds[|ds| - 1].name := ds[|ds| - 1]]
  }

  function ByPrefix(rs: seq<Registry>): map<string, Registry> {
    if rs == [] then map[] else ByPrefix(rs[..|rs| - 1])[rs[|rs| - 1].prefix := rs[|rs| - 1]]
  }

  datatype PlanDoc = PlanDoc(deployments: Actions, registries: Actions, hostUpdate: seq<Change>, hostNoop: seq<Change>,
                             driftDeployments: seq<Change>, driftRegistries: seq<Change>, driftHost: seq<Change>,
                             conflicts: seq<Conflict>, destructiveDeployments: seq<Change>,
                             destructiveRegistries: seq<Change>)

  datatype Summary = Summary(create: nat, update: nat, delete: nat, noop: nat, drift: nat, conflict: nat,
                             destructive: nat)

  /** The whole result of Build. */
  datatype Built = Built(plan: PlanDoc, summary: Summary, fingerprint: string)

  function Summarize(p: PlanDoc): Summary {
    Summary(|p.deployments.create| + |p.registries.create|,
            |p.deployments.update| + |p.registries.update| + |p.hostUpdate|,
            |p.deployments.delete| + |p.registries.delete|,
            |p.deployments.noop| + |p.registries.noop| + |p.hostNoop|,
            |p.driftDeployments| + |p.driftRegistries| + |p.driftHost|, |p.conflicts|,
            |p.destructiveDeployments| + |p.destructiveRegistries|)
  }

  const HOST := "host"

  /** The changes planningHost lists; an absent live host counts as an empty one. */
  function HostChanges(desired: Option<Host>, live: Option<Host>): seq<string> {
    if desired.None? then [] else DiffHost(if live.Some? then live.value else Host("", "", None), desired.value)
  }

  function DeploymentsOf(s: Spec): map<string, Deployment> { ByName(Canonicalize(s).deployments) }

  function RegistriesOf(s: Spec): map<string, Registry> { ByPrefix(Canonicalize(s).registries) }

  /** The plan when the map of live deployments is walked in the given order. */
  ghost function BuildPlan(desired: Spec, live: Spec, order: seq<string>): PlanDoc
    requires Enumerates(order, DeploymentsOf(live).Keys)
  {
    var dd, ld, dr, lr := DeploymentsOf(desired), DeploymentsOf(live), RegistriesOf(desired), RegistriesOf(live);
    var deployments := PlanActions(dd, ld, DiffDeployment);
    var registries := PlanActions(dr, lr, DiffRegistry);
    var changes := HostChanges(desired.host, live.host);
    var hostUpdate := if changes == [] then [] else [Change(HOST, changes)];
    PlanDoc(deployments, registries, hostUpdate, if changes == [] then [Change(HOST, [])] else [],
            deployments.update + deployments.delete, registries.update + registries.delete, hostUpdate,
            ConflictsOf(KeysInOrder(dd.Keys), dd, DomainOwners(order, ld)), deployments.delete, registries.delete)
  }

  lemma NoOwners(live: map<string, Deployment>)
    ensures DomainOwners([], live) == map[]
  {
  }

  lemma OneMoreOwner(order: seq<string>, n: string, live: map<string, Deployment>)
    requires n in live && forall m :: m in order ==> m in live
    ensures var domain := TrimSpace(live[n].domain); var before := DomainOwners(order, live);
            DomainOwners(order + [n], live) ==
              (if domain == "" || domain in before then before else before[domain := n])
  {
    hide TrimSpace, Trimmed;
    var longer := order + [n];
    assert longer[|longer| - 1] == n && longer[..|longer| - 1] == order;
  }

  /** The owner of each live domain, with the live map walked in an arbitrary order. */
  method RunDomainOwners(live: map<string, Deployment>) returns (owners: map<string, string>, ghost order: seq<string>)
    ensures Enumerates(order, live.Keys) && owners == DomainOwners(order, live)
  {
    hide TrimSpace, DomainOwners;
    assert DomainOwners([], live) == map[] by { NoOwners(live); }
    var rest := live.Keys;
    owners, order := map[], [];
    while rest != {}
      invariant rest <= live.Keys && DistinctBy(Self, order) && forall n :: n in order <==> n in live && n !in rest
      invariant owners == DomainOwners(order, live)
    {
      var n :| n in rest;
      assert n !in order;
      forall i | 0 <= i < |order| ensures order[i] != n { assert order[i] in order; }
      OneMoreOwner(order, n, live);
      var domain := TrimSpace(live[n].domain);
      if domain != "" && domain !in owners { owners := owners[domain := n]; }
      order, rest := order + [n], rest - {n};
    }
  }

  /** deploymentConflicts */
  method DeploymentConflicts(desired: map<string, Deployment>, live: map<string, Deployment>)
    returns (conflicts: seq<Conflict>, ghost order: seq<string>)
    ensures Enumerates(order, live.Keys)
    ensures conflicts == ConflictsOf(KeysInOrder(desired.Keys), desired, DomainOwners(order, live))
  {
    hide ConflictOf, DomainOwners;
    var owners;
    owners, order := RunDomainOwners(live);
    var names := SortedKeys(desired.Keys);
    SortedKeysUnique(names, KeysInOrder(desired.Keys), desired.Keys);
    conflicts := [];
    for i := 0 to |names|
      invariant conflicts == ConflictsOf(names[..i], desired, owners)
    {
      assert names[..i + 1][..i] == names[..i];
      var c := ConflictOf(desired, owners, names[i]);
      if c.Some? { conflicts := conflicts + [c.value]; }
    }
    assert names[..|names|] == names;
  }

  /** Build; None is the "spec is required" error. sha is the digest of the encoded plan. */
  method RunBuild(sha: (PlanDoc, Summary) -> string, desired: Document, live: Document)
    returns (built: Option<Built>, ghost order: seq<string>)
    ensures built.None? <==> desired.spec.None? || live.spec.None?
    ensures built.Some? ==> Enumerates(order, DeploymentsOf(live.spec.value).Keys) &&
                            built.value.plan == BuildPlan(desired.spec.value, live.spec.value, order) &&
                            built.value.summary == Summarize(built.value.plan) &&
                            built.value.fingerprint == sha(built.value.plan, built.value.summary)
  {
    hide PlanActions, DomainOwners, ConflictsOf, Canonicalize, DiffHost;
    if desired.spec.None? || live.spec.None? { return None, []; }
    var want, have := desired.spec.value, live.spec.value;
    var deployments, driftD, destructiveD := RunPlanActions(DeploymentsOf(want), DeploymentsOf(have), DiffDeployment);
    var conflicts;
    conflicts, order := DeploymentConflicts(DeploymentsOf(want), DeploymentsOf(have));
    var registries, driftR, destructiveR := RunPlanActions(RegistriesOf(want), RegistriesOf(have), DiffRegistry);
    var changes := HostChanges(want.host, have.host);
    var hostUpdate := if changes == [] then [] else [Change(HOST, changes)];
    var plan := PlanDoc(deployments, registries, hostUpdate, if changes == [] then [Change(HOST, [])] else [],
                        driftD, driftR, hostUpdate, conflicts, destructiveD, destructiveR);
    built := Some(Built(plan, Summarize(plan), sha(plan, Summarize(plan))));
  }

  /** The counts are conserved: every desired or live resource is counted once as create, update,
      delete or noop, drift counts updates and deletes, destructive counts deletes. */
  lemma SummaryAddsUp(desired: Spec, live: Spec, order: seq<string>)
    requires Enumerates(order, DeploymentsOf(live).Keys)
    ensures var s := Summarize(BuildPlan(desired, live, order));
            s.create + s.update + s.delete + s.noop ==
              |DeploymentsOf(desired).Keys + DeploymentsOf(live).Keys| +
              |RegistriesOf(desired).Keys + RegistriesOf(live).Keys| + 1 &&
            s.drift == s.update + s.delete && s.destructive == s.delete
  {
    hide PlanActions, DeploymentsOf, RegistriesOf, ConflictsOf, DomainOwners, HostChanges;
    ActionsAddUp(DeploymentsOf(desired), DeploymentsOf(live), DiffDeployment);
    ActionsAddUp(RegistriesOf(desired), RegistriesOf(live), DiffRegistry);
  }

  // ---------------------------------------------------------------- reordered documents

  /** The same deployment with its basic-auth users listed in another order. */
  predicate PermutedUsers(d: Deployment, e: Deployment) {
    && e == d.(basicAuth := e.basicAuth)
    && match (d.basicAuth, e.basicAuth)
       case (None, None) => true
       case (Some(x), Some(y)) => multiset(x) == multiset(y)
       case _ => false
  }

  /** The same document up to the order of deployments, users and registries. */
  ghost predicate Reordered(s: Spec, t: Spec) {
    && s.host == t.host && multiset(s.registries) == multiset(t.registries)
    && exists mid: seq<Deployment> :: |mid| == |s.deployments| && multiset(mid) == multiset(t.deployments) &&
         forall i :: 0 <= i < |mid| ==> PermutedUsers(s.deployments[i], mid[i])
  }

  lemma PermutedUsersCanonical(d: Deployment, e: Deployment)
    requires PermutedUsers(d, e) && (d.basicAuth.Some? ==> DistinctUsernames(d.basicAuth.value))
    ensures CanonicalDeployment(d) == CanonicalDeployment(e)
  {
    if d.basicAuth.Some? {
      assert DistinctBy(Username, d.basicAuth.value);
      SortIgnoresOrder(Username, d.basicAuth.value, e.basicAuth.value);
    }
  }

  lemma {:induction false} CanonicalMultiset(s: seq<Deployment>, t: seq<Deployment>)
    requires multiset(s) == multiset(t)
    ensures multiset(CanonicalDeployments(s)) == multiset(CanonicalDeployments(t))
  {
    hide CanonicalDeployment;
    assert |s| == |multiset(s)| && |t| == |multiset(t)|;
    if s == [] {
      assert CanonicalDeployments(s) == CanonicalDeployments(t);
    } else {
      var x, n := s[|s| - 1], |s| - 1;
      assert s == s[..n] + [x];
      assert x in multiset(t);
      var k :| 0 <= k < |t| && t[k] == x;
      var rest := t[..k] + t[k + 1..];
      assert t == t[..k] + [x] + t[k + 1..];
      assert multiset(s[..n]) == multiset(s) - multiset{x};
      assert multiset(rest) == multiset(t) - multiset{x};
      CanonicalMultiset(s[..n], rest);
      CanonicalAppend(s[..n], x);
      CanonicalMiddle(t, k);
    }
  }

  lemma CanonicalAppend(s: seq<Deployment>, x: Deployment)
    ensures multiset(CanonicalDeployments(s + [x])) ==
              multiset(CanonicalDeployments(s)) + multiset{CanonicalDeployment(x)}
  {
    hide CanonicalDeployment;
    assert CanonicalDeployments(s + [x]) == CanonicalDeployments(s) + [CanonicalDeployment(x)];
  }

  lemma CanonicalMiddle(t: seq<Deployment>, k: int)
    requires 0 <= k < |t|
    ensures multiset(CanonicalDeployments(t)) ==
            multiset(CanonicalDeployments(t[..k] + t[k + 1..])) + multiset{CanonicalDeployment(t[k])}
  {
    hide CanonicalDeployment;
    var c := CanonicalDeployments(t);
    assert CanonicalDeployments(t[..k] + t[k + 1..]) == c[..k] + c[k + 1..];
    assert c == c[..k] + [c[k]] + c[k + 1..];
  }

  predicate UsersDistinct(s: Spec) {
    forall i :: 0 <= i < |s.deployments| && s.deployments[i].basicAuth.Some? ==>
      DistinctUsernames(s.deployments[i].basicAuth.value)
  }

  /** Reordering a document does not change its canonical form. */
  lemma ReorderedCanonical(s: Spec, t: Spec)
    requires Reordered(s, t) && DistinctNames(s.deployments) && DistinctPrefixes(s.registries) && UsersDistinct(s)
    ensures Canonicalize(s) == Canonicalize(t)
  {
    hide CanonicalDeployment, PermutedUsers, CanonicalDeployments, SortBy;
    var mid: seq<Deployment> :| |mid| == |s.deployments| && multiset(mid) == multiset(t.deployments) &&
                                forall i :: 0 <= i < |mid| ==> PermutedUsers(s.deployments[i], mid[i]);
    SameCanonical(s, mid);
    CanonicalMultiset(mid, t.deployments);
    SortIgnoresOrder(Name, CanonicalDeployments(s.deployments), CanonicalDeployments(t.deployments));
    assert DistinctBy(Prefix, s.registries);
    SortIgnoresOrder(Prefix, s.registries, t.registries);
  }

  lemma SameCanonical(s: Spec, mid: seq<Deployment>)
    requires |mid| == |s.deployments| && forall i :: 0 <= i < |mid| ==> PermutedUsers(s.deployments[i], mid[i])
    requires UsersDistinct(s) && DistinctNames(s.deployments)
    ensures CanonicalDeployments(s.deployments) == CanonicalDeployments(mid)
    ensures DistinctBy(Name, CanonicalDeployments(s.deployments))
  {
    hide CanonicalDeployment, PermutedUsers;
    var c := CanonicalDeployments(s.deployments);
    forall i | 0 <= i < |mid| ensures c[i] == CanonicalDeployments(mid)[i] {
      PermutedUsersCanonical(s.deployments[i], mid[i]);
    }
    forall i, j | 0 <= i < j < |c| ensures Name(c[i]) != Name(c[j]) {
      CanonicalKeepsName(s.deployments[i]);
      CanonicalKeepsName(s.deployments[j]);
    }
  }

  lemma CanonicalKeepsName(d: Deployment)
    ensures CanonicalDeployment(d).name == d.name
  {
  }

  ghost predicate Stable(desired: Spec, live: Spec) { Unambiguous(DeploymentsOf(desired), DeploymentsOf(live)) }

  /** Valid documents that differ only in order give the same plan, whatever the map order, as long
      as no reported conflict is about a domain that two live deployments share. */
  lemma BuildIgnoresOrder(ip: string -> bool, desired: Spec, desired': Spec, live: Spec, live': Spec,
                          order: seq<string>, order': seq<string>)
    requires ValidSpec(ip, desired) && ValidSpec(ip, live)
    requires Reordered(desired, desired') && Reordered(live, live') && Stable(desired, live)
    requires Enumerates(order, DeploymentsOf(live).Keys) && Enumerates(order', DeploymentsOf(live').Keys)
    ensures BuildPlan(desired, live, order) == BuildPlan(desired', live', order')
  {
    hide Reordered, Unambiguous, Canonicalize, PlanActions, DomainOwners, ConflictsOf, ValidSpec, HostChanges,
         UsersDistinct, DistinctNames, DistinctPrefixes, Enumerates;
    ValidUsersDistinct(ip, desired);
    ValidUsersDistinct(ip, live);
    ReorderedHosts(desired, desired');
    ReorderedHosts(live, live');
    ReorderedCanonical(desired, desired');
    ReorderedCanonical(live, live');
    UnambiguousIgnoresOrder(DeploymentsOf(desired), DeploymentsOf(live), order, order');
  }

  lemma ReorderedReflexive(s: Spec)
    ensures Reordered(s, s)
  {
    forall i | 0 <= i < |s.deployments| ensures PermutedUsers(s.deployments[i], s.deployments[i]) {}
  }

  /** For valid documents the plan is the same for every order, of the documents and of the map,
      exactly when no real conflict is about a domain that two live deployments share. */
  lemma BuildIgnoresOrderExactly(ip: string -> bool, desired: Spec, live: Spec)
    requires ValidSpec(ip, desired) && ValidSpec(ip, live)
    ensures Stable(desired, live) <==>
            forall desired', live', order, order' | Reordered(desired, desired') && Reordered(live, live') &&
              Enumerates(order, DeploymentsOf(live).Keys) && Enumerates(order', DeploymentsOf(live').Keys) ::
              BuildPlan(desired, live, order) == BuildPlan(desired', live', order')
  {
    hide Reordered, ValidSpec, BuildPlan, DeploymentsOf, Enumerates, TrimSpace, Trimmed, RealConflict;
    if Stable(desired, live) {
      forall desired', live', order, order' | Reordered(desired, desired') && Reordered(live, live') &&
        Enumerates(order, DeploymentsOf(live).Keys) && Enumerates(order', DeploymentsOf(live').Keys)
        ensures BuildPlan(desired, live, order) == BuildPlan(desired', live', order')
      {
        BuildIgnoresOrder(ip, desired, desired', live, live', order, order');
      }
    } else {
      var dd, ld := DeploymentsOf(desired), DeploymentsOf(live);
      var c, m :| RealConflict(dd, ld, c) && m in ld && TrimSpace(ld[m].domain) == c.domain && m != c.owner;
      var a, b := AmbiguousDependsOnOrder(dd, ld, c, m);
      ReorderedReflexive(desired);
      ReorderedReflexive(live);
      PlanConflicts(desired, live, a);
      PlanConflicts(desired, live, b);
      assert BuildPlan(desired, live, a) != BuildPlan(desired, live, b);
    }
  }

  lemma PlanConflicts(desired: Spec, live: Spec, order: seq<string>)
    requires Enumerates(order, DeploymentsOf(live).Keys)
    ensures BuildPlan(desired, live, order).conflicts ==
            ConflictsOf(KeysInOrder(DeploymentsOf(desired).Keys), DeploymentsOf(desired),
                        DomainOwners(order, DeploymentsOf(live)))
  {
    hide DeploymentsOf, RegistriesOf, PlanActions, ConflictsOf, DomainOwners, HostChanges;
  }

  function Site(name: string): Deployment {
    Deployment(name, "nginx:1", "x.dev", Some(true), map[], [], None, [], [], None, None)
  }

  /** A document with the deployments m and n, both on the domain x.dev. */
  function SharedDomain(): Spec { Spec([Site("m"), Site("n")], [], None) }

  lemma NotBlank(s: string)
    requires s != "" && Trimmed(s)
    ensures !Blank(s)
  {
  }

  lemma SiteIsValid(ip: string -> bool, name: string)
    requires name != "" && Trimmed(name)
    ensures ValidDeployment(ip, Site(name))
  {
    hide Blank, Trimmed, ManagedName, Clean, Sensitive, IsPlaceholder;
    NotBlank(name);
    SiteTexts();
    NotBlank("nginx:1");
    NotBlank("x.dev");
    var d := Site(name);
    assert ValidPorts(d.ports, d.proxyPort) && ValidEnv(d.env) && ValidFileMounts(d.fileMounts);
  }

  lemma SiteTexts()
    ensures Trimmed("nginx:1") && Trimmed("x.dev")
  {
  }

  lemma PairIsValid(ip: string -> bool, d: Deployment, e: Deployment)
    requires ValidDeployment(ip, d) && ValidDeployment(ip, e) && d.name != e.name
    ensures ValidSpec(ip, Spec([d, e], [], None))
  {
    hide ValidDeployment;
  }

  lemma SharedDomainIsValid(ip: string -> bool)
    ensures ValidSpec(ip, SharedDomain())
  {
    hide ValidSpec, ValidDeployment;
    assert Trimmed("m") && Trimmed("n") && "m"[0] != "n"[0];
    SiteIsValid(ip, "m");
    SiteIsValid(ip, "n");
    PairIsValid(ip, Site("m"), Site("n"));
  }

  lemma SharedDomainMaps()
    ensures DeploymentsOf(SharedDomain()) == map["m" := Site("m"), "n" := Site("n")]
  {
    var doc := SharedDomain();
    assert doc.deployments[0].name == "m" && doc.deployments[1].name == "n" && "m"[0] != "n"[0];
    DeploymentsOfMembers(doc);
    assert CanonicalDeployment(Site("m")) == Site("m") && CanonicalDeployment(Site("n")) == Site("n");
    hide DeploymentsOf, CanonicalDeployment, Site;
    forall n | n in DeploymentsOf(doc) ensures n == "m" || n == "n" {}
  }

  /** The plan for two valid documents depends on the map order: with the document above desired and
      live, whichever name the map yields first is reported as the owner that the other clashes with. */
  lemma SharedDomainChangesPlan(ip: string -> bool)
    ensures var doc, a, b := SharedDomain(), ["m", "n"], ["n", "m"];
            ValidSpec(ip, doc) && Enumerates(a, DeploymentsOf(doc).Keys) && Enumerates(b, DeploymentsOf(doc).Keys) &&
            Conflict("n", "x.dev", "m") in BuildPlan(doc, doc, a).conflicts &&
            Conflict("n", "x.dev", "m") !in BuildPlan(doc, doc, b).conflicts
  {
    hide BuildPlan, DeploymentsOf, DomainOwners, ConflictsOf, ValidSpec;
    var doc, a, b := SharedDomain(), ["m", "n"], ["n", "m"];
    SharedDomainIsValid(ip);
    SharedDomainMaps();
    var live, c := DeploymentsOf(doc), Conflict("n", "x.dev", "m");
    assert a[0] == "m" && b[0] == "n" && "m"[0] != "n"[0];
    assert Enumerates(a, live.Keys) && Enumerates(b, live.Keys);
    assert Trimmed("x.dev");
    FirstClaims(a, live);
    FirstClaims(b, live);
    ConflictsExactly(live, live, a, c);
    ConflictsExactly(live, live, b, c);
    PlanConflicts(doc, doc, a);
    PlanConflicts(doc, doc, b);
  }

  lemma ReorderedHosts(s: Spec, t: Spec)
    requires Reordered(s, t)
    ensures s.host == t.host
  {
  }

  lemma ValidUsersDistinct(ip: string -> bool, s: Spec)
    requires ValidSpec(ip, s)
    ensures UsersDistinct(s) && DistinctNames(s.deployments) && DistinctPrefixes(s.registries)
  {
    hide ValidRegistry, ValidHost;
    forall i | 0 <= i < |s.deployments| && s.deployments[i].basicAuth.Some?
      ensures DistinctUsernames(s.deployments[i].basicAuth.value)
    {
      assert ValidDeployment(ip, s.deployments[i]);
    }
  }

  // ---------------------------------------------------------------- maps of valid lists

  lemma {:induction false} ByNameMembers(ds: seq<Deployment>)
    requires DistinctNames(ds)
    ensures forall i :: 0 <= i < |ds| ==> ds[i].name in ByName(ds) && ByName(ds)[ds[i].name] == ds[i]
    ensures forall n :: n in ByName(ds) ==> ByName(ds)[n] in ds && ByName(ds)[n].name == n
  {
    if ds != [] {
      var n := |ds| - 1;
      ByNameMembers(ds[..n]);
      forall i | 0 <= i < |ds| ensures ds[i].name in ByName(ds) && ByName(ds)[ds[i].name] == ds[i] {
        if i < n { assert ds[..n][i] == ds[i]; }
      }
    }
  }

  lemma {:induction false} ByPrefixMembers(rs: seq<Registry>)
    requires DistinctPrefixes(rs)
    ensures forall i :: 0 <= i < |rs| ==> rs[i].prefix in ByPrefix(rs) && ByPrefix(rs)[rs[i].prefix] == rs[i]
    ensures forall p :: p in ByPrefix(rs) ==> ByPrefix(rs)[p] in rs && ByPrefix(rs)[p].prefix == p
  {
    if rs != [] {
      var n := |rs| - 1;
      ByPrefixMembers(rs[..n]);
      forall i | 0 <= i < |rs| ensures rs[i].prefix in ByPrefix(rs) && ByPrefix(rs)[rs[i].prefix] == rs[i] {
        if i < n { assert rs[..n][i] == rs[i]; }
      }
    }
  }

  /** The planner's map of deployments holds the canonical form of each listed deployment. */
  lemma DeploymentsOfMembers(s: Spec)
    requires DistinctNames(s.deployments)
    ensures forall i :: 0 <= i < |s.deployments| ==>
              s.deployments[i].name in DeploymentsOf(s) &&
              DeploymentsOf(s)[s.deployments[i].name] == CanonicalDeployment(s.deployments[i])
    ensures forall n :: n in DeploymentsOf(s) ==>
              exists i :: 0 <= i < |s.deployments| && s.deployments[i].name == n
  {
    hide CanonicalDeployment, SortBy, ByName;
    var c := CanonicalDeployments(s.deployments);
    forall i | 0 <= i < |c| ensures c[i].name == s.deployments[i].name { CanonicalKeepsName(s.deployments[i]); }
    SortedByName(c);
    forall n | n in DeploymentsOf(s) ensures exists i :: 0 <= i < |s.deployments| && s.deployments[i].name == n {
      var i :| 0 <= i < |c| && c[i].name == n;
      assert s.deployments[i].name == n;
    }
  }

  lemma SortedByName(c: seq<Deployment>)
    requires DistinctNames(c)
    ensures forall i :: 0 <= i < |c| ==>
              c[i].name in ByName(SortBy(Name, c)) && ByName(SortBy(Name, c))[c[i].name] == c[i]
    ensures forall n :: n in ByName(SortBy(Name, c)) ==> exists i :: 0 <= i < |c| && c[i].name == n
  {
    hide SortBy, ByName;
    var sorted := SortBy(Name, c);
    SortProperties(Name, c);
    assert DistinctBy(Name, c);
    DistinctMultiset(Name, c, sorted);
    assert DistinctNames(sorted);
    ByNameMembers(sorted);
    forall i | 0 <= i < |c| ensures c[i].name in ByName(sorted) && ByName(sorted)[c[i].name] == c[i] {
      assert c[i] in multiset(sorted);
      var k :| 0 <= k < |sorted| && sorted[k] == c[i];
    }
    forall n | n in ByName(sorted) ensures exists i :: 0 <= i < |c| && c[i].name == n {
      assert ByName(sorted)[n] in multiset(c);
      var i :| 0 <= i < |c| && c[i] == ByName(sorted)[n];
    }
  }

  lemma RegistriesOfMembers(s: Spec)
    requires DistinctPrefixes(s.registries)
    ensures forall i :: 0 <= i < |s.registries| ==>
              s.registries[i].prefix in RegistriesOf(s) && RegistriesOf(s)[s.registries[i].prefix] == s.registries[i]
    ensures forall p :: p in RegistriesOf(s) ==> exists i :: 0 <= i < |s.registries| && s.registries[i].prefix == p
  {
    var rs := s.registries;
    var sorted := SortBy(Prefix, rs);
    SortProperties(Prefix, rs);
    assert DistinctBy(Prefix, rs);
    DistinctMultiset(Prefix, rs, sorted);
    ByPrefixMembers(sorted);
    forall i | 0 <= i < |rs| ensures rs[i].prefix in RegistriesOf(s) && RegistriesOf(s)[rs[i].prefix] == rs[i] {
      assert rs[i] in multiset(sorted);
      var k :| 0 <= k < |sorted| && sorted[k] == rs[i];
    }
    forall p | p in RegistriesOf(s) ensures exists i :: 0 <= i < |rs| && rs[i].prefix == p {
      assert RegistriesOf(s)[p] in multiset(rs);
      var i :| 0 <= i < |rs| && rs[i] == RegistriesOf(s)[p];
    }
  }
}
