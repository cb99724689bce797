/** A plan fits the state it was built for, and what a finished run of its actions did to each
    resource. */
module ApplyRuns {
  import opened Text
  import opened Ordering
  import opened Paths
  import opened ConfigV1
  import opened Plan
  import opened Build
  import opened Export
  import opened Apply
  import opened RoundTrip
  import opened Views
  import opened ApplySteps
  import opened ApplyFaults
  import Store

  // ---------------------------------------------------------------- the first plan fits its state

  function Ctx(desired: Spec, w: World, order: seq<string>): Context
    requires forall id :: id in order ==> id in w.store.deployments
  {
    ContextOf(desired, Listed(w, order), w.store.registries)
  }

  lemma SnapshotFits(w: World, order: seq<string>)
    requires GoodRecords(w.store.deployments) && Enumerates(order, w.store.deployments.Keys)
    ensures var live := LiveByName(Listed(w, order)); var s := w.store.deployments;
            && (forall n :: n in live <==> Rec(s, n).Some?)
            && (forall n :: n in live ==> Rec(s, n) == Some(live[n]))
  {
    hide Rec, GeneratedId, LiveByName;
    var s, listed := w.store.deployments, Listed(w, order);
    forall d | d in listed ensures d.id in s && s[d.id] == d {
      var i :| 0 <= i < |listed| && listed[i] == d;
      assert order[i] in order;
    }
    LiveByNameIs(s, listed);
    forall n | Rec(s, n).Some? ensures n in LiveByName(listed) {
      RecSome(s, n);
      var r := Rec(s, n).value;
      assert r.id in order;
      var i :| 0 <= i < |order| && order[i] == r.id;
      assert listed[i] == r;
    }
  }

  lemma DesiredFits(ip: string -> bool, env: Env, desired: Spec, w: World)
    requires ValidSpec(ip, desired) && Spelled(env, desired, w)
    ensures forall d :: d in desired.deployments ==> Trimmed(d.name) && KnownModes(d.volumeMounts)
    ensures forall r :: r in desired.registries ==> ValidRegistry(r) && SpelledRegistry(r)
  {
    hide ValidDeployment, ValidRegistry, ValidHost, SpelledRegistry, SpelledDeployment, Trimmed, StoredUnder,
         KnownModes;
    forall d | d in desired.deployments ensures Trimmed(d.name) && KnownModes(d.volumeMounts) {
      var i :| 0 <= i < |desired.deployments| && desired.deployments[i] == d;
      ValidModes(ip, d);
    }
  }

  lemma ValidModes(ip: string -> bool, d: Deployment)
    requires ValidDeployment(ip, d)
    ensures KnownModes(d.volumeMounts)
  {
    hide TrimSpace, Trimmed, ToLower, Clean, ManagedName, OctalMode, ValidPorts, ValidEnv, ValidFileMounts, ValidUsers,
         ValidSecurity;
    forall i | 0 <= i < |d.volumeMounts| ensures KnownMode(d.volumeMounts[i]) { assert ValidMount(d.volumeMounts[i]); }
  }

  lemma StartIsOnTheWay(env: Env, w: World)
    requires GoodRecords(w.store.deployments) && GoodRegistries(w.store.registries)
    ensures OnTheWay(env, w, w, [])
  {
    hide GoodRecords, GoodRegistries, Rec, RegRec;
    forall i | 0 <= i < |w.store.registries| ensures w.store.registries[i].id in Store.IdsIn(w.store.registries) {}
  }

  lemma ContextIsSnapshot(env: Env, desired: Spec, w: World, order: seq<string>)
    requires DistinctNames(desired.deployments) && DistinctPrefixes(desired.registries)
    requires GoodRecords(w.store.deployments) && GoodRegistries(w.store.registries)
    requires Enumerates(order, w.store.deployments.Keys)
    ensures ContextFits(env, Ctx(desired, w, order), desired, w)
  {
    SnapshotFits(w, order);
    RegistryIdsIs(w.store.registries);
    ByNameMembers(desired.deployments);
    ByPrefixMembers(desired.registries);
    hide GoodRecords, GoodRegistries, Listed, Rec, RegRec, LiveByName, RegistryIds, ByName, ByPrefix, DistinctNames,
         DistinctPrefixes;
  }

  lemma SettingParts(ip: string -> bool, env: Env, desired: Spec, w: World, order: seq<string>)
    requires Setting(ip, env, desired, w, order)
    ensures ValidSpec(ip, desired) && Spelled(env, desired, w) && FreshIds(env, w)
    ensures DistinctNames(desired.deployments) && DistinctPrefixes(desired.registries)
    ensures Enumerates(order, w.store.deployments.Keys)
  {
    hide ValidDeployment, ValidRegistry, ValidHost, GeneratedId, GoodBase, ExportSpec, FreshIds, Spelled,
         Store.UniqueIds, Enumerates;
  }

  lemma ContextHolds(ip: string -> bool, env: Env, desired: Spec, w: World, order: seq<string>)
    requires Setting(ip, env, desired, w, order)
    ensures Good(Ctx(desired, w, order), env, desired, w) && OnTheWay(env, w, w, [])
    ensures GoodRecords(w.store.deployments) && GoodRegistries(w.store.registries)
  {
    hide Setting, ValidSpec, OnTheWay, GoodRecords, GoodRegistries, Trimmed, ValidRegistry, SpelledRegistry, KnownModes,
         FreshIds, ContextFits, Ctx, Spelled, Enumerates, DistinctNames, DistinctPrefixes;
    SettingIsGood(ip, env, desired, w, order);
    SettingParts(ip, env, desired, w, order);
    DesiredFits(ip, env, desired, w);
    StartIsOnTheWay(env, w);
    ContextIsSnapshot(env, desired, w, order);
  }

  ghost predicate Planning(env: Env, desired: Spec, w: World, order: seq<string>, mo: seq<string>) {
    && (forall id :: id in order ==> id in w.store.deployments)
    && Enumerates(mo, DeploymentsOf(ExportSpec(env.base, w, order)).Keys)
  }

  ghost function PlanOf(env: Env, desired: Spec, w: World, order: seq<string>, mo: seq<string>): PlanDoc
    requires Planning(env, desired, w, order, mo)
  {
    BuildPlan(desired, ExportSpec(env.base, w, order), mo)
  }

  /** What the planner's maps contain, in terms of the desired document and the views of the state. */
  ghost predicate MapsFit(base: string, ctx: Context, w: World, dd: map<string, Deployment>,
                          ld: map<string, Deployment>,
                          dr: map<string, Registry>, lr: map<string, Registry>)
  {
    && (forall n :: n in dd <==> n in ctx.deployments) &&
       (forall n :: n in dd ==> dd[n] == CanonicalDeployment(ctx.deployments[n]))
    && (forall n :: n in ld <==> Rec(w.store.deployments, n).Some?)
    && (forall n :: n in ld ==> ld[n] == CanonicalDeployment(ExportDeployment(base, Rec(w.store.deployments, n).value)))
    && (forall p :: p in dr <==> p in ctx.registries) && (forall p :: p in dr ==> dr[p] == ctx.registries[p])
    && (forall p :: p in lr <==> RegRec(w.store.registries, p).Some?)
    && (forall p :: p in lr ==> lr[p] == ExportRegistry(RegRec(w.store.registries, p).value))
  }

  lemma DesiredMaps(desired: Spec, ctx: Context)
    requires DistinctNames(desired.deployments) && DistinctPrefixes(desired.registries)
    requires ctx.deployments == ByName(desired.deployments) && ctx.registries == ByPrefix(desired.registries)
    ensures var dd := DeploymentsOf(desired);
            (forall n :: n in dd <==> n in ctx.deployments) &&
            (forall n :: n in dd ==> dd[n] == CanonicalDeployment(ctx.deployments[n]))
    ensures var dr := RegistriesOf(desired);
            (forall p :: p in dr <==> p in ctx.registries) && (forall p :: p in dr ==> dr[p] == ctx.registries[p])
  {
    hide CanonicalDeployment, DeploymentsOf, RegistriesOf, ByName, ByPrefix;
    var dd, ds := DeploymentsOf(desired), desired.deployments;
    DeploymentsOfMembers(desired);
    ByNameMembers(ds);
    forall n | n in ctx.deployments ensures n in dd && dd[n] == CanonicalDeployment(ctx.deployments[n]) {
      var i :| 0 <= i < |ds| && ds[i] == ctx.deployments[n];
      assert ds[i].name == n;
    }
    var dr, rs := RegistriesOf(desired), desired.registries;
    RegistriesOfMembers(desired);
    ByPrefixMembers(rs);
    forall p | p in ctx.registries ensures p in dr && dr[p] == ctx.registries[p] {
      var i :| 0 <= i < |rs| && rs[i] == ctx.registries[p];
      assert rs[i].prefix == p;
    }
  }

  lemma MapsOf(ip: string -> bool, base: string, desired: Spec, ctx: Context, w: World, order: seq<string>)
    requires ValidSpec(ip, desired) && GoodRecords(w.store.deployments) && GoodRegistries(w.store.registries)
    requires Enumerates(order, w.store.deployments.Keys)
    requires ctx.deployments == ByName(desired.deployments) && ctx.registries == ByPrefix(desired.registries)
    ensures var live := ExportSpec(base, w, order);
            MapsFit(base, ctx, w, DeploymentsOf(desired), DeploymentsOf(live), RegistriesOf(desired),
                    RegistriesOf(live))
  {
    hide ValidDeployment, ValidRegistry, ValidHost, ExportDeployment, ExportRegistry, Rec, RegRec, GoodRecords,
         GoodRegistries, CanonicalDeployment, DeploymentsOf, RegistriesOf, ExportSpec, DistinctNames,
         DistinctPrefixes, ByName, ByPrefix;
    LiveMap(base, w, order);
    LiveRegistryMap(base, w, order);
    DesiredMaps(desired, ctx);
  }

  /** Every action of the plan fits the state it was built for, and no two clash. */
  lemma ActionsFit(env: Env, desired: Spec, ctx: Context, w: World, order: seq<string>, mo: seq<string>)
    requires Planning(env, desired, w, order, mo) && ctx.host == desired.host
    requires var live := ExportSpec(env.base, w, order);
             MapsFit(env.base, ctx, w, DeploymentsOf(desired), DeploymentsOf(live), RegistriesOf(desired),
                     RegistriesOf(live))
    ensures var acts := ActionsOf(PlanOf(env, desired, w, order, mo));
            (forall a :: a in acts ==> Fits(ctx, w, a)) && NoClash(acts)
  {
    hide Rec, RegRec, PlanActions, ActionsOf, DeploymentsOf, RegistriesOf, ExportSpec, CanonicalDeployment,
         ExportDeployment, ExportRegistry, DomainOwners, ConflictsOf, DiffHost;
    var p := PlanOf(env, desired, w, order, mo);
    var acts := ActionsOf(p);
    forall a | a in acts ensures Fits(ctx, w, a) {
      ActionsMembers(p, a);
      PlannedFits(env, desired, ctx, w, order, mo, a);
    }
    var live := ExportSpec(env.base, w, order);
    PlanNoDuplicates(DeploymentsOf(desired), DeploymentsOf(live), DiffDeployment);
    PlanNoDuplicates(RegistriesOf(desired), RegistriesOf(live), DiffRegistry);
    ActionsNoDuplicates(p);
    forall i, j | 0 <= i < j < |acts| && acts[j].verb != NoopVerb
      ensures !Touches(acts[i], acts[j].kind, acts[j].change.resource)
    {
      assert acts[i] in acts && acts[j] in acts && acts[i] != acts[j];
      ActionsMembers(p, acts[i]);
      ActionsMembers(p, acts[j]);
      OneActionEach(env, desired, w, order, mo, acts[i], acts[j]);
    }
  }

  lemma PlannedFits(env: Env, desired: Spec, ctx: Context, w: World, order: seq<string>, mo: seq<string>, a: Action)
    requires Planning(env, desired, w, order, mo) && Planned(PlanOf(env, desired, w, order, mo), a) &&
             ctx.host == desired.host
    requires var live := ExportSpec(env.base, w, order);
             MapsFit(env.base, ctx, w, DeploymentsOf(desired), DeploymentsOf(live), RegistriesOf(desired),
                     RegistriesOf(live))
    ensures Fits(ctx, w, a)
  {
    hide Rec, RegRec, PlanActions, DeploymentsOf, RegistriesOf, ExportSpec, CanonicalDeployment, ExportDeployment,
         ExportRegistry, DomainOwners, ConflictsOf, DiffHost;
    var live := ExportSpec(env.base, w, order);
    PlanMembers(DeploymentsOf(desired), DeploymentsOf(live), DiffDeployment, a.change);
    PlanMembers(RegistriesOf(desired), RegistriesOf(live), DiffRegistry, a.change);
  }

  /** The list of a verb. */
  function ListOf(a: Actions, verb: Verb): seq<Change> {
    match verb
    case NoopVerb => a.noop
    case CreateVerb => a.create
    case UpdateVerb => a.update
    case DeleteVerb => a.delete
  }

  lemma OneChangeEach<T>(dd: map<string, T>, ld: map<string, T>, diff: (T, T) -> seq<string>, v: Verb, c: Change,
                         v': Verb, c': Change)
    requires c in ListOf(PlanActions(dd, ld, diff), v) && c' in ListOf(PlanActions(dd, ld, diff), v')
    requires c.resource == c'.resource
    ensures v == v' && c == c'
  {
    hide PlanActions;
    PlanMembers(dd, ld, diff, c);
    PlanMembers(dd, ld, diff, c');
    assert c == Change(c.resource, c.changes) && c' == Change(c'.resource, c'.changes);
  }

  lemma OneActionEach(env: Env, desired: Spec, w: World, order: seq<string>, mo: seq<string>, a: Action, b: Action)
    requires Planning(env, desired, w, order, mo)
    requires Planned(PlanOf(env, desired, w, order, mo), a) && Planned(PlanOf(env, desired, w, order, mo), b)
    requires b.verb != NoopVerb
    ensures Touches(a, b.kind, b.change.resource) ==> a == b
  {
    hide PlanActions, DeploymentsOf, RegistriesOf, ExportSpec, DomainOwners, ConflictsOf, DiffHost;
    var live := ExportSpec(env.base, w, order);
    if Touches(a, b.kind, b.change.resource) {
      match a.kind
      case DeploymentKind =>
        OneChangeEach(DeploymentsOf(desired), DeploymentsOf(live), DiffDeployment, a.verb, a.change, b.verb, b.change);
      case RegistryKind =>
        OneChangeEach(RegistriesOf(desired), RegistriesOf(live), DiffRegistry, a.verb, a.change, b.verb, b.change);
      case HostKind =>
    }
  }

  // ---------------------------------------------------------------- after the run

  /** Everything the lemmas about a finished run need. */
  ghost predicate Finished(env: Env, ctx: Context, desired: Spec, w: World, acts: seq<Action>, w': World,
                           outs: seq<Outcome>)
  {
    && Good(ctx, env, desired, w) && OnTheWay(env, w, w, []) && NoClash(acts)
    && (forall a :: a in acts ==> Fits(ctx, w, a)) && Ran(env, ctx, w, acts, w', outs)
  }

  predicate Reported(outs: seq<Outcome>, kind: Kind, verb: Verb, n: string, status: Status) {
    Outcome(kind, verb, n, status) in outs
  }

  lemma EndIsOnTheWay(env: Env, ctx: Context, desired: Spec, w: World, acts: seq<Action>, w': World, outs: seq<Outcome>)
    requires Finished(env, ctx, desired, w, acts, w', outs)
    ensures OnTheWay(env, w, w', acts)
  {
    hide Good, OnTheWay, Fits, NoClash;
    RunStaysOnTheWay(env, ctx, desired, w, acts, |acts|);
    assert acts[..|acts|] == acts;
  }

  /** The outcome of an action tells what became of its resource by the end of the run. */
  lemma ActionResult(env: Env, ctx: Context, desired: Spec, w: World, acts: seq<Action>, w': World, outs: seq<Outcome>,
                     i: nat)
    requires Finished(env, ctx, desired, w, acts, w', outs) && i < |acts| && acts[i].verb != NoopVerb
    ensures var a, n := acts[i], acts[i].change.resource;
            && !outs[i].status.Noop?
            && (forall s :: Reported(outs, a.kind, a.verb, n, s) <==> s == outs[i].status)
            && (outs[i].status.Failed? ==> Excused(env, ctx, a))
            && (a.kind.DeploymentKind? ==>
                  var was, now := Rec(w.store.deployments, n), Rec(w'.store.deployments, n);
                  if outs[i].status.Failed? then now == was
                  else if a.verb.DeleteVerb? then now.None?
                  else n in ctx.deployments && now.Some? && WritesDesired(env, ctx.deployments[n], now.value) &&
                       StatusFollows(a, was, now.value))
            && (a.kind.RegistryKind? ==>
                  var now := RegRec(w'.store.registries, n);
                  if outs[i].status.Failed? then now == RegRec(w.store.registries, n)
                  else if a.verb.DeleteVerb? then now.None?
                  else n in ctx.registries && now.Some? && StoresDesired(ctx.registries[n], now.value))
            && (a.kind.HostKind? ==>
                  if outs[i].status.Failed? then w'.host == w.host
                  else ctx.host.Some? && w'.host == ProfileOf(ctx.host.value))
  {
    hide Good, Fits, Step, WritesDesired, Rec, RegRec, GoodRecords, GoodRegistries, ProfileOf, Store.Normalized,
         StatusFollows, Excused;
    var a, n := acts[i], acts[i].change.resource;
    OthersLeaveItAlone(acts, i);
    RunStaysOnTheWay(env, ctx, desired, w, acts, i);
    StepAt(env, ctx, desired, w, acts, i);
    assert Untouched(acts[..i], a.kind, n) by {
      forall x | x in acts[..i] ensures !Touches(x, a.kind, n) { var k :| 0 <= k < i && acts[k] == x; }
    }
    assert a in acts;
    FailureIsExcused(env, ctx, desired, w, RunActions(env, ctx, w, acts[..i]), acts[..i], a);
    LaterActions(env, ctx, desired, w, acts, 0, i, a.kind, n);
    LaterActions(env, ctx, desired, w, acts, i + 1, |acts|, a.kind, n);
    assert acts[..0] == [] && acts[..|acts|] == acts;
    assert a in acts;
    if a.kind.HostKind? { HostIsHost(ctx, w, a); }
    forall s ensures Reported(outs, a.kind, a.verb, n, s) <==> s == outs[i].status {
      assert outs[i] == Outcome(a.kind, a.verb, n, outs[i].status);
      if Reported(outs, a.kind, a.verb, n, s) {
        var k :| 0 <= k < |outs| && outs[k] == Outcome(a.kind, a.verb, n, s);
        assert Touches(acts[k], a.kind, n);
      }
    }
  }

  predicate StoresDesired(d: Registry, r: Store.Registry) {
    r == Store.Normalized(r.id, d.prefix, d.username, d.password)
  }

  lemma HostIsHost(ctx: Context, w: World, a: Action)
    requires Fits(ctx, w, a) && a.kind.HostKind?
    ensures a.change.resource == HOST
  {
    hide Rec, RegRec;
  }

  lemma OthersLeaveItAlone(acts: seq<Action>, i: nat)
    requires NoClash(acts) && i < |acts| && acts[i].verb != NoopVerb
    ensures forall k :: 0 <= k < |acts| && k != i ==> !Touches(acts[k], acts[i].kind, acts[i].change.resource)
  {
  }

  /** A resource that no action touches is as it was, and nothing is reported for it. */
  lemma NoActionResult(env: Env, ctx: Context, desired: Spec, w: World, acts: seq<Action>, w': World,
                       outs: seq<Outcome>, kind: Kind, n: string)
    requires Finished(env, ctx, desired, w, acts, w', outs) && Untouched(acts, kind, n)
    ensures forall v, s :: v != NoopVerb ==> !Reported(outs, kind, v, n, s)
    ensures match kind
            case DeploymentKind => Rec(w'.store.deployments, n) == Rec(w.store.deployments, n)
            case RegistryKind => RegRec(w'.store.registries, n) == RegRec(w.store.registries, n)
            case HostKind => n == HOST ==> w'.host == w.host
  {
    hide Good, OnTheWay, Fits, NoClash, Step, Rec, RegRec;
    forall i | 0 <= i < |acts| ensures !Touches(acts[i], kind, n) { assert acts[i] in acts; }
    LaterActions(env, ctx, desired, w, acts, 0, |acts|, kind, n);
    assert acts[..0] == [] && acts[..|acts|] == acts;
    forall v, s | v != NoopVerb ensures !Reported(outs, kind, v, n, s) {
      forall k | 0 <= k < |outs| ensures outs[k] != Outcome(kind, v, n, s) { assert !Touches(acts[k], kind, n); }
    }
  }
}
