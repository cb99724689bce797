/** Plan, apply, export and plan again: the second plan lists exactly the actions that failed, and
    everything else is a no-op, whatever store calls fail in between. */
module Replan {
  import opened Text
  import opened Ordering
  import opened ConfigV1
  import opened Plan
  import opened Build
  import opened Export
  import opened Apply
  import opened RoundTrip
  import opened Views
  import opened ApplySteps
  import opened ApplyFaults
  import opened ApplyRedeploy
  import opened ApplyRuns
  import Store

  /** A plan for the exported state was carried out, after a listing of its own; outs reports it. */
  ghost predicate AppliedPlan(ip: string -> bool, env: Env, desired: Spec, w: World, order: seq<string>,
                              mo: seq<string>, w': World, outs: seq<Outcome>)
  {
    && Setting(ip, env, desired, w, order) && Planning(env, desired, w, order, mo)
    && exists listing :: RanListing(env, desired, w, listing, ActionsOf(PlanOf(env, desired, w, order, mo)), w', outs)
  }

  /** The actions ran against the records as listed in this map order. */
  ghost predicate RanListing(env: Env, desired: Spec, w: World, listing: seq<string>, acts: seq<Action>,
                             w': World, outs: seq<Outcome>)
  {
    Enumerates(listing, w.store.deployments.Keys) && Ran(env, Ctx(desired, w, listing), w, acts, w', outs)
  }

  /** With unique names, Execute's snapshot does not depend on the map order of its listing. */
  lemma CtxIgnoresOrder(desired: Spec, w: World, a: seq<string>, b: seq<string>)
    requires GoodRecords(w.store.deployments)
    requires Enumerates(a, w.store.deployments.Keys) && Enumerates(b, w.store.deployments.Keys)
    ensures Ctx(desired, w, a) == Ctx(desired, w, b)
  {
    hide LiveByName, GoodRecords, Rec, RegistryIds, ByName, ByPrefix;
    SnapshotFits(w, a);
    SnapshotFits(w, b);
    var x, y := LiveByName(Listed(w, a)), LiveByName(Listed(w, b));
    assert forall n :: n in x <==> n in y;
    assert x == y;
  }

  lemma AppliedFinished(ip: string -> bool, env: Env, desired: Spec, w: World, order: seq<string>, mo: seq<string>,
                        w': World, outs: seq<Outcome>)
    requires AppliedPlan(ip, env, desired, w, order, mo, w', outs)
    ensures var ctx, live := Ctx(desired, w, order), ExportSpec(env.base, w, order);
            && Finished(env, ctx, desired, w, ActionsOf(PlanOf(env, desired, w, order, mo)), w', outs)
            && MapsFit(env.base, ctx, w, DeploymentsOf(desired), DeploymentsOf(live), RegistriesOf(desired),
                       RegistriesOf(live))
            && OnTheWay(env, w, w', ActionsOf(PlanOf(env, desired, w, order, mo)))
  {
    hide Good, OnTheWay, NoClash, Fits, Ran, MapsFit, PlanOf, ExportSpec, GoodRecords, GoodRegistries, Spelled,
         GoodBase, FreshIds, GeneratedId, ValidSpec;
    ContextHolds(ip, env, desired, w, order);
    var listing :| RanListing(env, desired, w, listing, ActionsOf(PlanOf(env, desired, w, order, mo)), w', outs);
    CtxIgnoresOrder(desired, w, listing, order);
    MapsOf(ip, env.base, desired, Ctx(desired, w, order), w, order);
    ActionsFit(env, desired, Ctx(desired, w, order), w, order, mo);
    EndIsOnTheWay(env, Ctx(desired, w, order), desired, w, ActionsOf(PlanOf(env, desired, w, order, mo)), w', outs);
  }

  /** The one action that touches a resource, or -1. */
  lemma ActionFor(ip: string -> bool, env: Env, desired: Spec, w: World, order: seq<string>, mo: seq<string>,
                  w': World, outs: seq<Outcome>, kind: Kind, n: string) returns (i: int)
    requires AppliedPlan(ip, env, desired, w, order, mo, w', outs)
    ensures var p := PlanOf(env, desired, w, order, mo); var acts := ActionsOf(p);
            && -1 <= i < |acts| && |outs| == |acts|
            && (i == -1 ==> Untouched(acts, kind, n))
            && (i >= 0 ==> Touches(acts[i], kind, n) && Planned(p, acts[i]))
  {
    hide ActionsOf, PlanOf, Setting, Planned;
    var p := PlanOf(env, desired, w, order, mo);
    var acts := ActionsOf(p);
    if Untouched(acts, kind, n) {
      i := -1;
    } else {
      var a :| a in acts && Touches(a, kind, n);
      i :| 0 <= i < |acts| && acts[i] == a;
      ActionsMembers(p, a);
    }
  }

  // ---------------------------------------------------------------- the re-exported state is valid

  /** After the run, a record is as it was or was written from the desired deployment of its name. */
  lemma RecordOrigin(ip: string -> bool, env: Env, desired: Spec, w: World, order: seq<string>, mo: seq<string>,
                     w': World, outs: seq<Outcome>, n: string)
    requires AppliedPlan(ip, env, desired, w, order, mo, w', outs) && Rec(w'.store.deployments, n).Some?
    ensures var ctx, now := Ctx(desired, w, order), Rec(w'.store.deployments, n);
            now == Rec(w.store.deployments, n) ||
            (n in ctx.deployments && WritesDesired(env, ctx.deployments[n], now.value))
  {
    hide ActionsOf, PlanOf, Setting, Planned, Finished, WritesDesired, MapsFit, OnTheWay;
    AppliedFinished(ip, env, desired, w, order, mo, w', outs);
    var acts := ActionsOf(PlanOf(env, desired, w, order, mo));
    var i := ActionFor(ip, env, desired, w, order, mo, w', outs, DeploymentKind, n);
    if i < 0 { NoActionResult(env, Ctx(desired, w, order), desired, w, acts, w', outs, DeploymentKind, n); }
    else { ActionResult(env, Ctx(desired, w, order), desired, w, acts, w', outs, i); }
  }

  lemma RegistryOrigin(ip: string -> bool, env: Env, desired: Spec, w: World, order: seq<string>, mo: seq<string>,
                       w': World, outs: seq<Outcome>, n: string)
    requires AppliedPlan(ip, env, desired, w, order, mo, w', outs) && RegRec(w'.store.registries, n).Some?
    ensures var ctx, now := Ctx(desired, w, order), RegRec(w'.store.registries, n);
            now == RegRec(w.store.registries, n) || (n in ctx.registries && StoresDesired(ctx.registries[n], now.value))
  {
    hide ActionsOf, PlanOf, Setting, Planned, Finished, StoresDesired, MapsFit, OnTheWay;
    AppliedFinished(ip, env, desired, w, order, mo, w', outs);
    var acts := ActionsOf(PlanOf(env, desired, w, order, mo));
    var i := ActionFor(ip, env, desired, w, order, mo, w', outs, RegistryKind, n);
    if i < 0 { NoActionResult(env, Ctx(desired, w, order), desired, w, acts, w', outs, RegistryKind, n); }
    else { ActionResult(env, Ctx(desired, w, order), desired, w, acts, w', outs, i); }
  }

  lemma HostOrigin(ip: string -> bool, env: Env, desired: Spec, w: World, order: seq<string>, mo: seq<string>,
                   w': World, outs: seq<Outcome>)
    requires AppliedPlan(ip, env, desired, w, order, mo, w', outs)
    ensures var p := PlanOf(env, desired, w, order, mo);
            if p.hostUpdate != [] && !Reported(outs, HostKind, UpdateVerb, HOST, Failed)
            then desired.host.Some? && w'.host == ProfileOf(desired.host.value) else w'.host == w.host
  {
    hide ActionsOf, Setting, Finished, MapsFit, OnTheWay, ExportSpec, PlanActions, ConflictsOf, DiffHost, ProfileOf;
    AppliedFinished(ip, env, desired, w, order, mo, w', outs);
    var p := PlanOf(env, desired, w, order, mo);
    var i := ActionFor(ip, env, desired, w, order, mo, w', outs, HostKind, HOST);
    if i < 0 {
      NoActionResult(env, Ctx(desired, w, order), desired, w, ActionsOf(p), w', outs, HostKind, HOST);
      if p.hostUpdate != [] { ActionsMembers(p, Action(HostKind, UpdateVerb, p.hostUpdate[0])); }
    } else {
      ActionResult(env, Ctx(desired, w, order), desired, w, ActionsOf(p), w', outs, i);
    }
  }

  /** Desired deployments written by the run satisfy the round-trip lemma. */
  lemma WrittenRoundTrip(ip: string -> bool, env: Env, desired: Spec, w: World, d: Deployment, r: Store.Deployment)
    requires ValidSpec(ip, desired) && Spelled(env, desired, w) && GoodBase(env.base) && d in desired.deployments
    requires WritesDesired(env, d, r) && GeneratedId(r.id) && StoredUnder(env, w, d.name, r.id)
    ensures r.name == d.name && ValidDeployment(ip, ExportDeployment(env.base, r))
    ensures DiffDeployment(CanonicalDeployment(ExportDeployment(env.base, r)), CanonicalDeployment(d)) == []
  {
    hide ValidDeployment, ValidRegistry, ValidHost, GoodBase, WritesDesired, GeneratedId, SpelledDeployment,
         SpelledRegistry, ExportDeployment, DiffDeployment, CanonicalDeployment;
    var i :| 0 <= i < |desired.deployments| && desired.deployments[i] == d;
    DeploymentRoundTrip(ip, env, d, r);
  }

  lemma RecordsValid(ip: string -> bool, env: Env, desired: Spec, w: World, order: seq<string>, mo: seq<string>,
                     w': World, outs: seq<Outcome>, id: string)
    requires AppliedPlan(ip, env, desired, w, order, mo, w', outs) && id in w'.store.deployments
    ensures ValidDeployment(ip, ExportDeployment(env.base, w'.store.deployments[id]))
  {
    hide ActionsOf, PlanOf, Finished, WritesDesired, MapsFit, ValidDeployment, ValidRegistry, ValidHost,
         ExportDeployment, ExportHost, GeneratedId, FreshIds, Spelled, GoodBase, Ran, Rec, RegRec, StoredUnder, Ctx,
         Store.UniqueIds;
    AppliedFinished(ip, env, desired, w, order, mo, w', outs);
    var s := w'.store.deployments;
    var n := s[id].name;
    RecOf(s, id);
    RecordOrigin(ip, env, desired, w, order, mo, w', outs, n);
    if Rec(s, n) == Rec(w.store.deployments, n) {
      SettingIsGood(ip, env, desired, w, order);
      RecSome(w.store.deployments, n);
      assert id in order;
      var i :| 0 <= i < |order| && order[i] == id;
      assert ValidDeployment(ip, ExportSpec(env.base, w, order).deployments[i]);
    } else {
      CtxDesired(desired, w, order, n);
      WrittenRoundTrip(ip, env, desired, w, Ctx(desired, w, order).deployments[n], s[id]);
    }
  }

  lemma CtxDesired(desired: Spec, w: World, order: seq<string>, n: string)
    requires DistinctNames(desired.deployments) && DistinctPrefixes(desired.registries)
    requires forall id :: id in order ==> id in w.store.deployments
    ensures var ctx := Ctx(desired, w, order);
            && (n in ctx.deployments ==> ctx.deployments[n] in desired.deployments && ctx.deployments[n].name == n)
            && (n in ctx.registries ==> ctx.registries[n] in desired.registries && ctx.registries[n].prefix == n)
            && ctx.host == desired.host
  {
    hide LiveByName, RegistryIds, Listed;
    ByNameMembers(desired.deployments);
    ByPrefixMembers(desired.registries);
  }

  lemma RegistriesValid(ip: string -> bool, env: Env, desired: Spec, w: World, order: seq<string>, mo: seq<string>,
                        w': World, outs: seq<Outcome>, i: int)
    requires AppliedPlan(ip, env, desired, w, order, mo, w', outs) && 0 <= i < |w'.store.registries|
    ensures ValidRegistry(ExportRegistry(w'.store.registries[i]))
  {
    hide ActionsOf, PlanOf, Finished, StoresDesired, MapsFit, ValidDeployment, ValidRegistry, ValidHost,
         ExportRegistry, ExportHost, GeneratedId, FreshIds, GoodBase, Ran, Rec, RegRec, StoredUnder, Ctx,
         Store.UniqueIds, SpelledDeployment, SpelledRegistry, Trimmed;
    AppliedFinished(ip, env, desired, w, order, mo, w', outs);
    var rs := w'.store.registries;
    var p := rs[i].prefix;
    RegRecAt(rs, i);
    RegistryOrigin(ip, env, desired, w, order, mo, w', outs, p);
    if RegRec(rs, p) == RegRec(w.store.registries, p) {
      var k := RegRecSome(w.store.registries, p);
      assert ValidRegistry(ExportSpec(env.base, w, order).registries[k]);
    } else {
      CtxDesired(desired, w, order, p);
      StoredRoundTrip(ip, env, desired, w, Ctx(desired, w, order).registries[p], rs[i]);
    }
  }

  lemma StoredRoundTrip(ip: string -> bool, env: Env, desired: Spec, w: World, d: Registry, r: Store.Registry)
    requires ValidSpec(ip, desired) && Spelled(env, desired, w) && d in desired.registries && StoresDesired(d, r)
    ensures r.prefix == d.prefix && ValidRegistry(ExportRegistry(r)) && DiffRegistry(ExportRegistry(r), d) == []
  {
    hide ValidDeployment, ValidRegistry, ValidHost, SpelledDeployment, SpelledRegistry, ExportRegistry,
         DiffRegistry, Trimmed, StoredUnder;
    var i :| 0 <= i < |desired.registries| && desired.registries[i] == d;
    RegistryRoundTrip(d, r.id);
  }

  lemma HostValid(ip: string -> bool, env: Env, desired: Spec, w: World, order: seq<string>, mo: seq<string>,
                  w': World, outs: seq<Outcome>)
    requires AppliedPlan(ip, env, desired, w, order, mo, w', outs)
    ensures ValidHost(ip, ExportHost(w'.host))
  {
    hide PlanOf, ValidDeployment, ValidRegistry, ValidHost, GeneratedId, FreshIds, GoodBase, Ran, Ctx, Spelled,
         ExportHost, ProfileOf, Store.UniqueIds;
    HostOrigin(ip, env, desired, w, order, mo, w', outs);
    if w'.host == w.host {
      assert ExportSpec(env.base, w, order).host == Some(ExportHost(w.host));
    } else {
      HostRoundTrip(ip, desired.host.value);
    }
  }

  /** The state after the apply exports to a valid document, so the second plan can be made. */
  lemma ReexportValidates(ip: string -> bool, env: Env, desired: Spec, w: World, order: seq<string>, mo: seq<string>,
                          w': World, outs: seq<Outcome>, order': seq<string>)
    requires AppliedPlan(ip, env, desired, w, order, mo, w', outs) && Enumerates(order', w'.store.deployments.Keys)
    ensures ValidSpec(ip, ExportSpec(env.base, w', order'))
  {
    hide AppliedPlan, ValidDeployment, ValidRegistry, ValidHost, ExportHost, ExportDeployment, ExportRegistry,
         Finished, MapsFit, ActionsOf, PlanOf, Ctx, Rec, RegRec, GeneratedId;
    AppliedFinished(ip, env, desired, w, order, mo, w', outs);
    LiveMap(env.base, w', order');
    LiveRegistryMap(env.base, w', order');
    var spec := ExportSpec(env.base, w', order');
    forall i | 0 <= i < |spec.deployments| ensures ValidDeployment(ip, spec.deployments[i]) {
      assert order'[i] in order';
      RecordsValid(ip, env, desired, w, order, mo, w', outs, order'[i]);
    }
    forall i | 0 <= i < |spec.registries| ensures ValidRegistry(spec.registries[i]) {
      RegistriesValid(ip, env, desired, w, order, mo, w', outs, i);
    }
    HostValid(ip, env, desired, w, order, mo, w', outs);
  }

  // ---------------------------------------------------------------- the second plan

  /** q lists, of the actions of p, exactly those whose failure was reported; what was applied or
      was a no-op before is a no-op in q. */
  ghost predicate ListsFailures(kind: Kind, p: Actions, q: Actions, outs: seq<Outcome>, c: Change) {
    var n := c.resource;
    && (c in q.create <==> c in p.create && Reported(outs, kind, CreateVerb, n, Failed))
    && (c in q.update <==> c in p.update && Reported(outs, kind, UpdateVerb, n, Failed))
    && (c in q.delete <==> c in p.delete && Reported(outs, kind, DeleteVerb, n, Failed))
    && (c in q.noop <==> (c in p.noop || (c in p.create && Reported(outs, kind, CreateVerb, n, Applied)) ||
                          (c.changes == [] && Mentions(p.update, n) && Reported(outs, kind, UpdateVerb, n, Applied))))
  }

  /** What became of one name: how its live entry changed and what was reported. */
  ghost predicate Fate<T(!new)>(kind: Kind, dd: map<string, T>, ld: map<string, T>, ld': map<string, T>,
                          diff: (T, T) -> seq<string>, outs: seq<Outcome>, n: string)
  {
    if n in dd && n !in ld then
      if Reported(outs, kind, CreateVerb, n, Failed) then n !in ld' && !Reported(outs, kind, CreateVerb, n, Applied)
      else Reported(outs, kind, CreateVerb, n, Applied) && n in ld' && diff(ld'[n], dd[n]) == []
    else if n in dd && diff(ld[n], dd[n]) != [] then
      n in ld' &&
      if Reported(outs, kind, UpdateVerb, n, Failed)
      then ld'[n] == ld[n] && !Reported(outs, kind, UpdateVerb, n, Applied)
      else Reported(outs, kind, UpdateVerb, n, Applied) && diff(ld'[n], dd[n]) == []
    else if n in dd then n in ld' && ld'[n] == ld[n]
    else if n in ld then
      if Reported(outs, kind, DeleteVerb, n, Failed) then n in ld' && ld'[n] == ld[n] else n !in ld'
    else n !in ld'
  }

  /** The second plan follows from the fate of each name. */
  lemma FateDecidesPlan<T(!new)>(kind: Kind, dd: map<string, T>, ld: map<string, T>, ld': map<string, T>,
                           diff: (T, T) -> seq<string>, outs: seq<Outcome>, c: Change)
    requires Fate(kind, dd, ld, ld', diff, outs, c.resource)
    ensures ListsFailures(kind, PlanActions(dd, ld, diff), PlanActions(dd, ld', diff), outs, c)
  {
    hide PlanActions;
    PlanMembers(dd, ld, diff, c);
    PlanMembers(dd, ld', diff, c);
    PlanPartitions(dd, ld, diff, c.resource);
  }

  lemma DeploymentFate(ip: string -> bool, env: Env, desired: Spec, w: World, order: seq<string>, mo: seq<string>,
                       w': World, outs: seq<Outcome>, order': seq<string>, n: string)
    requires AppliedPlan(ip, env, desired, w, order, mo, w', outs) && Enumerates(order', w'.store.deployments.Keys)
    ensures Fate(DeploymentKind, DeploymentsOf(desired), DeploymentsOf(ExportSpec(env.base, w, order)),
                 DeploymentsOf(ExportSpec(env.base, w', order')), DiffDeployment, outs, n)
  {
    hide ActionsOf, Setting, Finished, OnTheWay, ExportSpec, PlanActions, ConflictsOf, DiffHost, DiffDeployment,
         DeploymentsOf, RegistriesOf, WritesDesired, ExportDeployment, ExportRegistry, CanonicalDeployment, Rec,
         RegRec, Ran, DomainOwners, RegistriesOf, Ctx;
    AppliedFinished(ip, env, desired, w, order, mo, w', outs);
    SecondMaps(ip, env, desired, w, order, mo, w', outs, order');
    var p, live := PlanOf(env, desired, w, order, mo), ExportSpec(env.base, w, order);
    var dd, ld := DeploymentsOf(desired), DeploymentsOf(live);
    var i := ActionFor(ip, env, desired, w, order, mo, w', outs, DeploymentKind, n);
    if i < 0 {
      NoActionResult(env, Ctx(desired, w, order), desired, w, ActionsOf(p), w', outs, DeploymentKind, n);
      NothingPlanned(env, desired, w, order, mo, n);
    } else {
      var a := ActionsOf(p)[i];
      ActionResult(env, Ctx(desired, w, order), desired, w, ActionsOf(p), w', outs, i);
      PlanMembers(dd, ld, DiffDeployment, a.change);
      if outs[i].status.Applied? && !a.verb.DeleteVerb? {
        WrittenDiff(ip, env, desired, w, order, mo, w', outs, n);
      }
    }
  }

  lemma SecondMaps(ip: string -> bool, env: Env, desired: Spec, w: World, order: seq<string>, mo: seq<string>,
                   w': World, outs: seq<Outcome>, order': seq<string>)
    requires AppliedPlan(ip, env, desired, w, order, mo, w', outs) && Enumerates(order', w'.store.deployments.Keys)
    ensures var live := ExportSpec(env.base, w', order');
            MapsFit(env.base, Ctx(desired, w, order), w', DeploymentsOf(desired), DeploymentsOf(live),
                    RegistriesOf(desired), RegistriesOf(live))
  {
    hide ActionsOf, Finished, ExportSpec, PlanOf, MapsFit, Ran, ValidDeployment, ValidRegistry, ValidHost,
         GoodRecords, GoodRegistries, Rec, RegRec, Spelled, FreshIds, GoodBase, LiveByName, RegistryIds;
    AppliedFinished(ip, env, desired, w, order, mo, w', outs);
    MapsOf(ip, env.base, desired, Ctx(desired, w, order), w', order');
  }

  /** A name without an action is a no-op or in neither document. */
  lemma NothingPlanned(env: Env, desired: Spec, w: World, order: seq<string>, mo: seq<string>, n: string)
    requires Planning(env, desired, w, order, mo)
    requires Untouched(ActionsOf(PlanOf(env, desired, w, order, mo)), DeploymentKind, n)
    ensures var dd, ld := DeploymentsOf(desired), DeploymentsOf(ExportSpec(env.base, w, order));
            if n in dd then n in ld && DiffDeployment(ld[n], dd[n]) == [] else n !in ld
  {
    hide ActionsOf, ExportSpec, PlanActions, ConflictsOf, DiffHost, DiffDeployment, DeploymentsOf, RegistriesOf,
         DomainOwners;
    var p := PlanOf(env, desired, w, order, mo);
    var dd, ld := DeploymentsOf(desired), DeploymentsOf(ExportSpec(env.base, w, order));
    var changes := if n in dd && n in ld then DiffDeployment(ld[n], dd[n]) else [];
    PlanMembers(dd, ld, DiffDeployment, Change(n, changes));
    ActionsMembers(p, Action(DeploymentKind, CreateVerb, Change(n, changes)));
    ActionsMembers(p, Action(DeploymentKind, UpdateVerb, Change(n, changes)));
    ActionsMembers(p, Action(DeploymentKind, DeleteVerb, Change(n, changes)));
  }

  lemma WrittenDiff(ip: string -> bool, env: Env, desired: Spec, w: World, order: seq<string>, mo: seq<string>,
                    w': World, outs: seq<Outcome>, n: string)
    requires AppliedPlan(ip, env, desired, w, order, mo, w', outs)
    requires var now, ctx := Rec(w'.store.deployments, n), Ctx(desired, w, order);
             now.Some? && n in ctx.deployments && WritesDesired(env, ctx.deployments[n], now.value)
    ensures DiffDeployment(CanonicalDeployment(ExportDeployment(env.base, Rec(w'.store.deployments, n).value)),
                           CanonicalDeployment(Ctx(desired, w, order).deployments[n])) == []
  {
    hide ActionsOf, Finished, ExportSpec, PlanOf, MapsFit, Ran, ValidDeployment, ValidRegistry, ValidHost,
         WritesDesired, Rec, RegRec, Spelled, FreshIds, GoodBase, Ctx, DiffDeployment, CanonicalDeployment,
         ExportDeployment, GeneratedId, StoredUnder;
    AppliedFinished(ip, env, desired, w, order, mo, w', outs);
    RecSome(w'.store.deployments, n);
    CtxDesired(desired, w, order, n);
    WrittenRoundTrip(ip, env, desired, w, Ctx(desired, w, order).deployments[n], Rec(w'.store.deployments, n).value);
  }

  lemma RegistryFate(ip: string -> bool, env: Env, desired: Spec, w: World, order: seq<string>, mo: seq<string>,
                     w': World, outs: seq<Outcome>, order': seq<string>, n: string)
    requires AppliedPlan(ip, env, desired, w, order, mo, w', outs) && Enumerates(order', w'.store.deployments.Keys)
    ensures Fate(RegistryKind, RegistriesOf(desired), RegistriesOf(ExportSpec(env.base, w, order)),
                 RegistriesOf(ExportSpec(env.base, w', order')), DiffRegistry, outs, n)
  {
    hide ActionsOf, Setting, Finished, OnTheWay, ExportSpec, PlanActions, ConflictsOf, DiffHost, DiffRegistry,
         DeploymentsOf, RegistriesOf, StoresDesired, ExportDeployment, ExportRegistry, CanonicalDeployment, Rec,
         RegRec, Ran, DomainOwners, Ctx;
    AppliedFinished(ip, env, desired, w, order, mo, w', outs);
    SecondMaps(ip, env, desired, w, order, mo, w', outs, order');
    var p, live := PlanOf(env, desired, w, order, mo), ExportSpec(env.base, w, order);
    var dr, lr := RegistriesOf(desired), RegistriesOf(live);
    var i := ActionFor(ip, env, desired, w, order, mo, w', outs, RegistryKind, n);
    if i < 0 {
      NoActionResult(env, Ctx(desired, w, order), desired, w, ActionsOf(p), w', outs, RegistryKind, n);
      NothingPlannedForRegistry(env, desired, w, order, mo, n);
    } else {
      var a := ActionsOf(p)[i];
      ActionResult(env, Ctx(desired, w, order), desired, w, ActionsOf(p), w', outs, i);
      PlanMembers(dr, lr, DiffRegistry, a.change);
      if outs[i].status.Applied? && !a.verb.DeleteVerb? {
        WrittenRegistryDiff(ip, env, desired, w, order, mo, w', outs, n);
      }
    }
  }

  lemma NothingPlannedForRegistry(env: Env, desired: Spec, w: World, order: seq<string>, mo: seq<string>, n: string)
    requires Planning(env, desired, w, order, mo)
    requires Untouched(ActionsOf(PlanOf(env, desired, w, order, mo)), RegistryKind, n)
    ensures var dr, lr := RegistriesOf(desired), RegistriesOf(ExportSpec(env.base, w, order));
            if n in dr then n in lr && DiffRegistry(lr[n], dr[n]) == [] else n !in lr
  {
    hide ActionsOf, ExportSpec, PlanActions, ConflictsOf, DiffHost, DiffRegistry, DeploymentsOf, RegistriesOf,
         DomainOwners;
    var p := PlanOf(env, desired, w, order, mo);
    var dr, lr := RegistriesOf(desired), RegistriesOf(ExportSpec(env.base, w, order));
    var changes := if n in dr && n in lr then DiffRegistry(lr[n], dr[n]) else [];
    PlanMembers(dr, lr, DiffRegistry, Change(n, changes));
    ActionsMembers(p, Action(RegistryKind, CreateVerb, Change(n, changes)));
    ActionsMembers(p, Action(RegistryKind, UpdateVerb, Change(n, changes)));
    ActionsMembers(p, Action(RegistryKind, DeleteVerb, Change(n, changes)));
  }

  lemma WrittenRegistryDiff(ip: string -> bool, env: Env, desired: Spec, w: World, order: seq<string>, mo: seq<string>,
                            w': World, outs: seq<Outcome>, n: string)
    requires AppliedPlan(ip, env, desired, w, order, mo, w', outs)
    requires var now, ctx := RegRec(w'.store.registries, n), Ctx(desired, w, order);
             now.Some? && n in ctx.registries && StoresDesired(ctx.registries[n], now.value)
    ensures DiffRegistry(ExportRegistry(RegRec(w'.store.registries, n).value), Ctx(desired, w, order).registries[n]) ==
              []
  {
    hide ActionsOf, ExportSpec, PlanOf, Ran, ValidDeployment, ValidRegistry, ValidHost, StoresDesired, RegRec,
         Spelled, FreshIds, GoodBase, Ctx, DiffRegistry, ExportRegistry, GeneratedId;
    CtxDesired(desired, w, order, n);
    StoredRoundTrip(ip, env, desired, w, Ctx(desired, w, order).registries[n], RegRec(w'.store.registries, n).value);
  }

  lemma HostReplan(ip: string -> bool, env: Env, desired: Spec, w: World, order: seq<string>, mo: seq<string>,
                   w': World, outs: seq<Outcome>, order': seq<string>, mo': seq<string>)
    requires AppliedPlan(ip, env, desired, w, order, mo, w', outs) && Planning(env, desired, w', order', mo')
    ensures var p, q := PlanOf(env, desired, w, order, mo), PlanOf(env, desired, w', order', mo');
            if Reported(outs, HostKind, UpdateVerb, HOST, Failed) && p.hostUpdate != []
            then q.hostUpdate == p.hostUpdate && q.hostNoop == p.hostNoop
            else q.hostUpdate == [] && q.hostNoop == [Change(HOST, [])]
  {
    hide DeploymentsOf, RegistriesOf, PlanActions, ConflictsOf, DiffHost, DomainOwners, ProfileOf, ExportHost, Ran,
         ValidDeployment, ValidRegistry, ValidHost, Spelled, FreshIds, GoodBase;
    HostOrigin(ip, env, desired, w, order, mo, w', outs);
    assert ExportSpec(env.base, w, order).host == Some(ExportHost(w.host));
    assert ExportSpec(env.base, w', order').host == Some(ExportHost(w'.host));
    if desired.host.Some? { HostRoundTrip(ip, desired.host.value); }
  }

  // ---------------------------------------------------------------- status and causes

  /** The action behind a report. */
  lemma ReportedAction(ip: string -> bool, env: Env, desired: Spec, w: World, order: seq<string>, mo: seq<string>,
                       w': World, outs: seq<Outcome>, kind: Kind, verb: Verb, n: string, status: Status)
    returns (i: nat)
    requires AppliedPlan(ip, env, desired, w, order, mo, w', outs) && Reported(outs, kind, verb, n, status)
    ensures var p := PlanOf(env, desired, w, order, mo); var acts := ActionsOf(p);
            i < |acts| && |outs| == |acts| && acts[i].kind == kind && acts[i].verb == verb &&
            acts[i].change.resource == n && outs[i].status == status && Planned(p, acts[i])
  {
    AppliedFinished(ip, env, desired, w, order, mo, w', outs);
    hide AppliedPlan, ActionsOf, PlanOf, Planned, MapsFit, OnTheWay, Good, Fits, NoClash;
    var p := PlanOf(env, desired, w, order, mo);
    i :| 0 <= i < |outs| && outs[i] == Outcome(kind, verb, n, status);
    ActionsMembers(p, ActionsOf(p)[i]);
  }

  /** A created deployment, and an updated one of which the planner sees a runtime difference, is left
      Deploying with nothing to tell; any other update keeps status, reason and error. */
  ghost predicate StatusTold(verb: Verb, live: map<string, Deployment>, want: map<string, Deployment>,
                             was: Option<Store.Deployment>, now: Option<Store.Deployment>, n: string)
  {
    now.Some? &&
    if verb.CreateVerb? || (n in live && n in want && !RuntimeCompares(live[n], want[n]))
    then now.value.status == Store.Deploying && now.value.reason == "" && now.value.error == ""
    else was.Some? && now.value.status == was.value.status && now.value.reason == was.value.reason &&
         now.value.error == was.value.error
  }

  lemma AppliedStatus(ip: string -> bool, env: Env, desired: Spec, w: World, order: seq<string>, mo: seq<string>,
                      w': World, outs: seq<Outcome>, verb: Verb, n: string)
    requires AppliedPlan(ip, env, desired, w, order, mo, w', outs) && (verb.CreateVerb? || verb.UpdateVerb?)
    requires Reported(outs, DeploymentKind, verb, n, Applied)
    ensures StatusTold(verb, DeploymentsOf(ExportSpec(env.base, w, order)), DeploymentsOf(desired),
                       Rec(w.store.deployments, n), Rec(w'.store.deployments, n), n)
  {
    hide AppliedPlan, ActionsOf, PlanOf, Planned, MapsFit, OnTheWay, Finished, DeploymentsOf, ExportSpec,
         RuntimeCompares,
         WritesDesired, RedeployRequired, DiffDeployment, Rec, Reported, Planning, Ctx;
    OrderKnown(ip, env, desired, w, order, mo, w', outs);
    var i := ReportedAction(ip, env, desired, w, order, mo, w', outs, DeploymentKind, verb, n, Applied);
    AppliedFinished(ip, env, desired, w, order, mo, w', outs);
    var p := PlanOf(env, desired, w, order, mo);
    var a := ActionsOf(p)[i];
    ActionResult(env, Ctx(desired, w, order), desired, w, ActionsOf(p), w', outs, i);
    var live, want := DeploymentsOf(ExportSpec(env.base, w, order)), DeploymentsOf(desired);
    PlannedDifference(env, desired, w, order, mo, a);
    if verb.UpdateVerb? { RedeployIsComparison(live[n], want[n]); }
  }

  lemma PlannedDifference(env: Env, desired: Spec, w: World, order: seq<string>, mo: seq<string>, a: Action)
    requires Planning(env, desired, w, order, mo) && Planned(PlanOf(env, desired, w, order, mo), a)
    requires a.kind.DeploymentKind?
    ensures var live, want, n := DeploymentsOf(ExportSpec(env.base, w, order)), DeploymentsOf(desired),
              a.change.resource;
            a.verb.UpdateVerb? ==> n in live && n in want && a.change.changes == DiffDeployment(live[n], want[n])
  {
    hide PlanActions, DeploymentsOf, RegistriesOf, ExportSpec, ConflictsOf, DomainOwners, HostChanges, DiffDeployment;
    PlanMembers(DeploymentsOf(desired), DeploymentsOf(ExportSpec(env.base, w, order)), DiffDeployment, a.change);
  }

  /** A reported failure has a cause in the environment of the action. */
  lemma FailureHasCause(ip: string -> bool, env: Env, desired: Spec, w: World, order: seq<string>, mo: seq<string>,
                        w': World, outs: seq<Outcome>, kind: Kind, verb: Verb, n: string)
    requires AppliedPlan(ip, env, desired, w, order, mo, w', outs) && Reported(outs, kind, verb, n, Failed)
    ensures Excused(env, Ctx(desired, w, order), Action(kind, verb, Change(n, [])))
  {
    hide AppliedPlan, ActionsOf, PlanOf, Planned, MapsFit, OnTheWay, Good, Fits, NoClash, CannotHash, TrimSpace, Ctx,
         Planning, DeploymentsOf, RegistriesOf, ExportSpec, Reported;
    OrderKnown(ip, env, desired, w, order, mo, w', outs);
    var i := ReportedAction(ip, env, desired, w, order, mo, w', outs, kind, verb, n, Failed);
    AppliedFinished(ip, env, desired, w, order, mo, w', outs);
    var acts := ActionsOf(PlanOf(env, desired, w, order, mo));
    NoopNeverFails(env, Ctx(desired, w, order), w, acts, w', outs, i);
    ActionResult(env, Ctx(desired, w, order), desired, w, acts, w', outs, i);
  }

  lemma NoopNeverFails(env: Env, ctx: Context, w: World, acts: seq<Action>, w': World, outs: seq<Outcome>, i: nat)
    requires Ran(env, ctx, w, acts, w', outs) && i < |acts|
    ensures acts[i].verb == NoopVerb ==> outs[i].status.Noop?
  {
    hide RunActions;
  }

  /** The second plan. */
  lemma SecondPlan(ip: string -> bool, env: Env, desired: Spec, w: World, order: seq<string>, mo: seq<string>,
                   w': World, outs: seq<Outcome>, order': seq<string>, mo': seq<string>)
    requires AppliedPlan(ip, env, desired, w, order, mo, w', outs)
    requires Enumerates(order', w'.store.deployments.Keys) && Planning(env, desired, w', order', mo')
    ensures ValidSpec(ip, ExportSpec(env.base, w', order'))
    ensures var p, q := PlanOf(env, desired, w, order, mo), PlanOf(env, desired, w', order', mo');
            && (forall c :: ListsFailures(DeploymentKind, p.deployments, q.deployments, outs, c))
            && (forall c :: ListsFailures(RegistryKind, p.registries, q.registries, outs, c))
            && (if Reported(outs, HostKind, UpdateVerb, HOST, Failed) && p.hostUpdate != []
                then q.hostUpdate == p.hostUpdate && q.hostNoop == p.hostNoop
                else q.hostUpdate == [] && q.hostNoop == [Change(HOST, [])])
  {
    hide Setting, Ran, ValidSpec, ListsFailures, Fate, DeploymentsOf, RegistriesOf, ExportSpec, PlanActions,
         ConflictsOf, DomainOwners, HostChanges;
    ReexportValidates(ip, env, desired, w, order, mo, w', outs, order');
    HostReplan(ip, env, desired, w, order, mo, w', outs, order', mo');
    var live, live' := ExportSpec(env.base, w, order), ExportSpec(env.base, w', order');
    forall c ensures ListsFailures(DeploymentKind, PlanOf(env, desired, w, order, mo).deployments,
                                   PlanOf(env, desired, w', order', mo').deployments, outs, c)
    {
      DeploymentFate(ip, env, desired, w, order, mo, w', outs, order', c.resource);
      FateDecidesPlan(DeploymentKind, DeploymentsOf(desired), DeploymentsOf(live), DeploymentsOf(live'), DiffDeployment,
                      outs, c);
    }
    forall c ensures ListsFailures(RegistryKind, PlanOf(env, desired, w, order, mo).registries,
                                   PlanOf(env, desired, w', order', mo').registries, outs, c)
    {
      RegistryFate(ip, env, desired, w, order, mo, w', outs, order', c.resource);
      FateDecidesPlan(RegistryKind, RegistriesOf(desired), RegistriesOf(live), RegistriesOf(live'), DiffRegistry, outs,
                      c);
    }
  }

  lemma OrderKnown(ip: string -> bool, env: Env, desired: Spec, w: World, order: seq<string>, mo: seq<string>,
                   w': World, outs: seq<Outcome>)
    requires AppliedPlan(ip, env, desired, w, order, mo, w', outs)
    ensures Planning(env, desired, w, order, mo) && forall id :: id in order ==> id in w.store.deployments
  {
    hide Setting, RanListing;
  }

  /** Main result. A plan for the exported state is applied while any of its calls fail. The state
      it leaves exports to a valid document, and planning again lists exactly the failed actions:
      failed creates, updates and deletes appear as they were, and all else is a no-op or gone. What
      was applied has the right status, and what failed has a cause in its environment. */
  lemma ApplyConverges(ip: string -> bool, env: Env, desired: Spec, w: World, order: seq<string>, mo: seq<string>,
                       w': World, outs: seq<Outcome>, order': seq<string>, mo': seq<string>)
    requires AppliedPlan(ip, env, desired, w, order, mo, w', outs)
    requires Enumerates(order', w'.store.deployments.Keys) && Planning(env, desired, w', order', mo')
    ensures ValidSpec(ip, ExportSpec(env.base, w', order'))
    ensures var p, q := PlanOf(env, desired, w, order, mo), PlanOf(env, desired, w', order', mo');
            && (forall c :: ListsFailures(DeploymentKind, p.deployments, q.deployments, outs, c))
            && (forall c :: ListsFailures(RegistryKind, p.registries, q.registries, outs, c))
            && (if Reported(outs, HostKind, UpdateVerb, HOST, Failed) && p.hostUpdate != []
                then q.hostUpdate == p.hostUpdate && q.hostNoop == p.hostNoop
                else q.hostUpdate == [] && q.hostNoop == [Change(HOST, [])])
    ensures forall verb: Verb, n ::
              verb != DeleteVerb && verb != NoopVerb && Reported(outs, DeploymentKind, verb, n, Applied) ==>
              StatusTold(verb, DeploymentsOf(ExportSpec(env.base, w, order)), DeploymentsOf(desired),
                         Rec(w.store.deployments, n), Rec(w'.store.deployments, n), n)
    ensures forall kind, verb, n :: Reported(outs, kind, verb, n, Failed) ==>
              Excused(env, Ctx(desired, w, order), Action(kind, verb, Change(n, [])))
  {
    hide StatusTold, Excused, Reported, Rec, Ctx, ListsFailures, AppliedPlan, Planning, PlanOf, ExportSpec, ValidSpec,
         DeploymentsOf, Enumerates;
    OrderKnown(ip, env, desired, w, order, mo, w', outs);
    SecondPlan(ip, env, desired, w, order, mo, w', outs, order', mo');
    forall verb: Verb, n | verb != DeleteVerb && verb != NoopVerb && Reported(outs, DeploymentKind, verb, n, Applied)
      ensures StatusTold(verb, DeploymentsOf(ExportSpec(env.base, w, order)), DeploymentsOf(desired),
                         Rec(w.store.deployments, n), Rec(w'.store.deployments, n), n)
    {
      AppliedStatus(ip, env, desired, w, order, mo, w', outs, verb, n);
    }
    forall kind, verb, n | Reported(outs, kind, verb, n, Failed)
      ensures Excused(env, Ctx(desired, w, order), Action(kind, verb, Change(n, [])))
    {
      FailureHasCause(ip, env, desired, w, order, mo, w', outs, kind, verb, n);
    }
  }

  /** The environment never fails: every write succeeds, ids are drawn and not blank, and every
      password can be hashed. */
  ghost predicate FaultFree(env: Env, ctx: Context) {
    && (forall kind, n :: env.io(kind, n))
    && (forall kind, n :: env.newId(kind, n).Some? && env.newId(kind, n).value != "")
    && (forall password :: env.hash(password).Some?)
    && (forall p :: p in ctx.registryIds ==> TrimSpace(ctx.registryIds[p]) != "")
  }

  /** One fault-free apply is enough: nothing fails, and the second plan lists only no-ops. */
  lemma FaultFreeApplySuffices(ip: string -> bool, env: Env, desired: Spec, w: World, order: seq<string>,
                               mo: seq<string>, w': World, outs: seq<Outcome>, order': seq<string>,
                               mo': seq<string>)
    requires AppliedPlan(ip, env, desired, w, order, mo, w', outs) && FaultFree(env, Ctx(desired, w, order))
    requires Enumerates(order', w'.store.deployments.Keys) && Planning(env, desired, w', order', mo')
    ensures forall kind, verb, n :: !Reported(outs, kind, verb, n, Failed)
    ensures var q := PlanOf(env, desired, w', order', mo');
            && q.deployments.create == [] && q.deployments.update == [] && q.deployments.delete == []
            && q.registries.create == [] && q.registries.update == [] && q.registries.delete == [] && q.hostUpdate == []
  {
    ApplyConverges(ip, env, desired, w, order, mo, w', outs, order', mo');
    forall kind, verb, n ensures !Reported(outs, kind, verb, n, Failed) {
      NeverExcused(env, Ctx(desired, w, order), Action(kind, verb, Change(n, [])));
    }
    var p, q := PlanOf(env, desired, w, order, mo), PlanOf(env, desired, w', order', mo');
    hide AppliedPlan, Planning, PlanOf, Ctx, FaultFree, Excused, StatusTold, Reported, ExportSpec, ValidSpec,
         DeploymentsOf;
    NothingListed(DeploymentKind, p.deployments, q.deployments, outs);
    NothingListed(RegistryKind, p.registries, q.registries, outs);
  }

  lemma NeverExcused(env: Env, ctx: Context, a: Action)
    requires FaultFree(env, ctx)
    ensures !Excused(env, ctx, a)
  {
    hide TrimSpace;
  }

  lemma NothingListed(kind: Kind, p: Actions, q: Actions, outs: seq<Outcome>)
    requires forall c :: ListsFailures(kind, p, q, outs, c)
    requires forall verb, n :: !Reported(outs, kind, verb, n, Failed)
    ensures q.create == [] && q.update == [] && q.delete == []
  {
    hide Reported;
    forall c ensures c !in q.create && c !in q.update && c !in q.delete { assert ListsFailures(kind, p, q, outs, c); }
    SomeMember(q.create);
    SomeMember(q.update);
    SomeMember(q.delete);
  }

  lemma SomeMember(s: seq<Change>)
    ensures s != [] ==> exists c :: c in s
  {
    if s != [] { assert s[0] in s; }
  }
}
