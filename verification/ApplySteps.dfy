/** What one action of a plan does to the store, and what every prefix of a run of actions keeps. */
module ApplySteps {
  import opened Text
  import opened Ordering
  import opened ConfigV1
  import opened Plan
  import opened Build
  import opened Export
  import opened Apply
  import opened RoundTrip
  import opened Views
  import Store

  // ---------------------------------------------------------------- the setting

  /** The drawn ids are new, different for different resources, and have the generated form. */
  ghost predicate FreshIds(env: Env, w: World) {
    && (forall n: string :: env.newId(DeploymentKind, n).Some? ==>
          var id := env.newId(DeploymentKind, n).value; id !in w.store.deployments && GeneratedId(id))
    && (forall n: string :: env.newId(RegistryKind, n).Some? ==>
          env.newId(RegistryKind, n).value !in Store.IdsIn(w.store.registries))
    && (forall k: Kind, m: string, n: string {:trigger env.newId(k, m), env.newId(k, n)} ::
          env.newId(k, m).Some? && env.newId(k, m) == env.newId(k, n) ==> m == n)
  }

  /** The desired document is in the spelling the store keeps, for the ids it can be stored under. */
  ghost predicate Spelled(env: Env, desired: Spec, w: World) {
    && (forall i :: 0 <= i < |desired.registries| ==> SpelledRegistry(desired.registries[i]))
    && (forall i, id: string ::
          0 <= i < |desired.deployments| && StoredUnder(env, w, desired.deployments[i].name, id) ==>
          SpelledDeployment(env.base, id, desired.deployments[i]))
    && (forall i :: 0 <= i < |desired.deployments| ==> Trimmed(desired.deployments[i].name))
  }

  /** The id a deployment of this name has or would be given. */
  ghost predicate StoredUnder(env: Env, w: World, n: string, id: string) {
    env.newId(DeploymentKind, n) == Some(id) || (id in w.store.deployments && w.store.deployments[id].name == n)
  }

  ghost predicate Setting(ip: string -> bool, env: Env, desired: Spec, w: World, order: seq<string>) {
    && ValidSpec(ip, desired) && Spelled(env, desired, w) && GoodBase(env.base) && FreshIds(env, w)
    && Enumerates(order, w.store.deployments.Keys) && ValidSpec(ip, ExportSpec(env.base, w, order))
    && (forall id :: id in w.store.deployments ==> w.store.deployments[id].id == id && GeneratedId(id))
    && Store.UniqueIds(w.store.registries)
  }

  function Listed(w: World, order: seq<string>): (r: seq<Store.Deployment>)
    requires forall id :: id in order ==> id in w.store.deployments
    ensures |r| == |order| && forall i :: 0 <= i < |order| ==> r[i] == w.store.deployments[order[i]]
  {
    seq(|order|, i requires 0 <= i < |order| => w.store.deployments[order[i]])
  }

  // ---------------------------------------------------------------- the maps of the planner, by view

  /** What exporting and mapping by name make of a state with unique names. */
  lemma LiveMap(base: string, w: World, order: seq<string>)
    requires GoodRecords(w.store.deployments) && Enumerates(order, w.store.deployments.Keys)
    ensures DistinctNames(ExportSpec(base, w, order).deployments)
    ensures forall n :: n in DeploymentsOf(ExportSpec(base, w, order)) <==> Rec(w.store.deployments, n).Some?
    ensures forall n :: Rec(w.store.deployments, n).Some? ==>
              DeploymentsOf(ExportSpec(base, w, order))[n] ==
                CanonicalDeployment(ExportDeployment(base, Rec(w.store.deployments, n).value))
  {
    hide CanonicalDeployment, DeploymentsOf, GeneratedId;
    var spec, s := ExportSpec(base, w, order), w.store.deployments;
    forall i | 0 <= i < |order| ensures spec.deployments[i].name == s[order[i]].name {
      ExportKeepsName(base, s[order[i]]);
    }
    forall i, j | 0 <= i < j < |order| ensures spec.deployments[i].name != spec.deployments[j].name {
      assert Self(order[i]) != Self(order[j]) && order[i] in order && order[j] in order;
    }
    DeploymentsOfMembers(spec);
    forall n | Rec(s, n).Some? ensures n in DeploymentsOf(spec) &&
      DeploymentsOf(spec)[n] == CanonicalDeployment(ExportDeployment(base, Rec(s, n).value))
    {
      RecSome(s, n);
      assert Rec(s, n).value.id in order;
      var i :| 0 <= i < |order| && order[i] == Rec(s, n).value.id;
      assert spec.deployments[i].name == n;
    }
    forall n | n in DeploymentsOf(spec) ensures Rec(s, n).Some? {
      var i :| 0 <= i < |spec.deployments| && spec.deployments[i].name == n;
      assert order[i] in order;
      RecOf(s, order[i]);
    }
  }

  lemma ExportKeepsName(base: string, d: Store.Deployment)
    ensures ExportDeployment(base, d).name == d.name
  {
  }

  lemma LiveRegistryMap(base: string, w: World, order: seq<string>)
    requires GoodRegistries(w.store.registries) && forall id :: id in order ==> id in w.store.deployments
    ensures DistinctPrefixes(ExportSpec(base, w, order).registries)
    ensures forall p :: p in RegistriesOf(ExportSpec(base, w, order)) <==> RegRec(w.store.registries, p).Some?
    ensures forall p :: RegRec(w.store.registries, p).Some? ==>
              RegistriesOf(ExportSpec(base, w, order))[p] == ExportRegistry(RegRec(w.store.registries, p).value)
  {
    hide RegistriesOf, IsPlaceholder, PlaceholderFor;
    var spec, rs := ExportSpec(base, w, order), w.store.registries;
    assert forall i :: 0 <= i < |rs| ==> spec.registries[i].prefix == rs[i].prefix;
    RegistriesOfMembers(spec);
    forall p | RegRec(rs, p).Some?
      ensures p in RegistriesOf(spec) && RegistriesOf(spec)[p] == ExportRegistry(RegRec(rs, p).value)
    {
      var i := RegRecSome(rs, p);
      assert spec.registries[i] == ExportRegistry(rs[i]);
    }
    forall p | p in RegistriesOf(spec) ensures RegRec(rs, p).Some? {
      var i :| 0 <= i < |spec.registries| && spec.registries[i].prefix == p;
      RegRecAt(rs, i);
    }
  }

  lemma UniqueNames(base: string, w: World, order: seq<string>, a: string, b: string)
    requires Enumerates(order, w.store.deployments.Keys) && DistinctNames(ExportSpec(base, w, order).deployments)
    requires a in w.store.deployments && b in w.store.deployments && a != b
    ensures w.store.deployments[a].name != w.store.deployments[b].name
  {
    hide ExportDeployment, ExportRegistries, ExportHost;
    var s, ds := w.store.deployments, ExportSpec(base, w, order).deployments;
    assert a in order && b in order;
    var i :| 0 <= i < |order| && order[i] == a;
    var j :| 0 <= j < |order| && order[j] == b;
    ExportKeepsName(base, s[a]);
    ExportKeepsName(base, s[b]);
    assert i < j || j < i;
    assert ds[i].name == s[a].name && ds[j].name == s[b].name;
  }

  lemma UniquePrefixesOf(base: string, w: World, order: seq<string>)
    requires (forall id :: id in order ==> id in w.store.deployments) &&
             DistinctPrefixes(ExportSpec(base, w, order).registries)
    ensures Store.UniquePrefixes(w.store.registries)
  {
    hide ExportDeployments, ExportHost, PlaceholderFor, IsPlaceholder;
    var rs, es := w.store.registries, ExportSpec(base, w, order).registries;
    assert forall i :: 0 <= i < |rs| ==> es[i].prefix == rs[i].prefix;
  }

  /** A state whose export validates has unique names and prefixes. */
  lemma SettingIsGood(ip: string -> bool, env: Env, desired: Spec, w: World, order: seq<string>)
    requires Setting(ip, env, desired, w, order)
    ensures GoodRecords(w.store.deployments) && GoodRegistries(w.store.registries)
  {
    hide ValidDeployment, ValidRegistry, ValidHost, GeneratedId, Spelled, FreshIds, GoodBase, ExportSpec,
         DistinctNames, DistinctPrefixes, Store.UniqueIds, Store.UniquePrefixes;
    UniquePrefixesOf(env.base, w, order);
    forall a, b | a in w.store.deployments && b in w.store.deployments && a != b
      ensures w.store.deployments[a].name != w.store.deployments[b].name
    {
      UniqueNames(env.base, w, order, a, b);
    }
  }

  lemma {:induction false} LiveByNameIs(s: Deployments, listed: seq<Store.Deployment>)
    requires GoodRecords(s) && forall d :: d in listed ==> d.id in s && s[d.id] == d
    ensures forall n :: n in LiveByName(listed) ==> Rec(s, n) == Some(LiveByName(listed)[n])
    ensures forall d :: d in listed ==> d.name in LiveByName(listed)
  {
    hide GeneratedId;
    if listed != [] {
      var k := |listed| - 1;
      var last := listed[k];
      assert last in listed;
      forall d | d in listed[..k] ensures d in listed {}
      LiveByNameIs(s, listed[..k]);
      RecOf(s, last.id);
      forall d | d in listed ensures d == last || d in listed[..k] {
        var i :| 0 <= i < |listed| && listed[i] == d;
        if i < k { assert listed[..k][i] == d; }
      }
    }
  }

  lemma {:induction false} RegistryIdsIs(rs: seq<Store.Registry>)
    requires Store.UniquePrefixes(rs)
    ensures forall p :: p in RegistryIds(rs) <==> RegRec(rs, p).Some?
    ensures forall p :: p in RegistryIds(rs) ==> RegistryIds(rs)[p] == RegRec(rs, p).value.id
  {
    if rs != [] {
      var k := |rs| - 1;
      RegistryIdsIs(rs[..k]);
      assert forall i :: 0 <= i < k ==> rs[..k][i] == rs[i];
      forall p
        ensures (p in RegistryIds(rs) <==> RegRec(rs, p).Some?) &&
                (p in RegistryIds(rs) ==> RegistryIds(rs)[p] == RegRec(rs, p).value.id)
      {
        RegRecAt(rs, k);
        if p != rs[k].prefix {
          if RegRec(rs, p).Some? {
            var i := RegRecSome(rs, p);
            RegRecAt(rs[..k], i);
          } else if RegRec(rs[..k], p).Some? {
            var i := RegRecSome(rs[..k], p);
            RegRecAt(rs, i);
          }
        }
      }
    }
  }

  // ---------------------------------------------------------------- what an action may assume

  predicate Touches(a: Action, kind: Kind, n: string) {
    a.kind == kind && a.verb != NoopVerb && a.change.resource == n
  }

  /** The snapshot that Execute works from agrees with the state it started in. */
  ghost predicate ContextFits(env: Env, ctx: Context, desired: Spec, w: World) {
    && (forall n :: n in ctx.deployments ==> ctx.deployments[n] in desired.deployments && ctx.deployments[n].name == n)
    && (forall p :: p in ctx.registries ==> ctx.registries[p] in desired.registries && ctx.registries[p].prefix == p)
    && (forall n :: n in ctx.liveByName <==> Rec(w.store.deployments, n).Some?)
    && (forall n :: n in ctx.liveByName ==> Rec(w.store.deployments, n) == Some(ctx.liveByName[n]))
    && (forall p :: p in ctx.registryIds <==> RegRec(w.store.registries, p).Some?)
    && (forall p :: p in ctx.registryIds ==> ctx.registryIds[p] == RegRec(w.store.registries, p).value.id)
  }

  /** An action of a plan built for the state w. */
  ghost predicate Fits(ctx: Context, w: World, a: Action) {
    var n := a.change.resource;
    match (a.kind, a.verb)
    case (DeploymentKind, CreateVerb) => n in ctx.deployments && Rec(w.store.deployments, n).None?
    case (DeploymentKind, UpdateVerb) => n in ctx.deployments && Rec(w.store.deployments, n).Some?
    case (DeploymentKind, DeleteVerb) => Rec(w.store.deployments, n).Some?
    case (RegistryKind, CreateVerb) => n in ctx.registries && RegRec(w.store.registries, n).None?
    case (RegistryKind, UpdateVerb) => n in ctx.registries && RegRec(w.store.registries, n).Some?
    case (RegistryKind, DeleteVerb) => RegRec(w.store.registries, n).Some?
    case (HostKind, _) => n == HOST && (a.verb != NoopVerb ==> a.verb == UpdateVerb && ctx.host.Some?)
    case (_, NoopVerb) => true
  }

  // ---------------------------------------------------------------- the invariant of a run

  ghost predicate Untouched(done: seq<Action>, kind: Kind, n: string) {
    forall a :: a in done ==> !Touches(a, kind, n)
  }

  /** w is a state on the way from w0, after the actions `done`. */
  ghost predicate OnTheWay(env: Env, w0: World, w: World, done: seq<Action>) {
    && GoodRecords(w.store.deployments) && GoodRegistries(w.store.registries)
    && (forall n :: Untouched(done, DeploymentKind, n) ==> Rec(w.store.deployments, n) == Rec(w0.store.deployments, n))
    && (forall p :: Untouched(done, RegistryKind, p) ==>
          RegRec(w.store.registries, p) == RegRec(w0.store.registries, p))
    && (forall id :: id in w.store.deployments ==> StoredUnder(env, w0, w.store.deployments[id].name, id))
    && (forall i :: 0 <= i < |w.store.registries| ==>
          w.store.registries[i].id in Store.IdsIn(w0.store.registries) ||
          env.newId(RegistryKind, w.store.registries[i].prefix) == Some(w.store.registries[i].id))
  }

  /** A created record and one whose update asks for a redeploy are Deploying with nothing to tell;
      any other update keeps the status. */
  predicate StatusFollows(a: Action, before: Option<Store.Deployment>, now: Store.Deployment) {
    if a.verb.CreateVerb? || RedeployRequired(a.change.changes)
    then now.status == Store.Deploying && now.reason == "" && now.error == ""
    else before.Some? && now.status == before.value.status && now.reason == before.value.reason &&
         now.error == before.value.error
  }

  /** What one action does: only to its own resource, and nothing at all when it fails. */
  ghost predicate StepDoes(env: Env, ctx: Context, w: World, a: Action, w': World, status: Status) {
    var n := a.change.resource;
    && (status.Failed? || a.verb.NoopVerb? ==> w' == w) && (status.Noop? <==> a.verb.NoopVerb?)
    && (if a.kind.DeploymentKind? then SameExcept(w.store.deployments, w'.store.deployments, n)
        else w'.store.deployments == w.store.deployments)
    && (if a.kind.RegistryKind? then SameRegistriesExcept(w.store.registries, w'.store.registries, n)
        else w'.store.registries == w.store.registries)
    && (!a.kind.HostKind? ==> w'.host == w.host)
    && (status.Applied? ==>
          match a.kind
          case DeploymentKind =>
            if a.verb.DeleteVerb? then Rec(w'.store.deployments, n).None?
            else n in ctx.deployments && Rec(w'.store.deployments, n).Some? &&
                 WritesDesired(env, ctx.deployments[n], Rec(w'.store.deployments, n).value) &&
                 StatusFollows(a, Rec(w.store.deployments, n), Rec(w'.store.deployments, n).value)
          case RegistryKind =>
            if a.verb.DeleteVerb? then RegRec(w'.store.registries, n).None?
            else n in ctx.registries && RegRec(w'.store.registries, n).Some? &&
                 var r := RegRec(w'.store.registries, n).value; var d := ctx.registries[n];
                 r == Store.Normalized(r.id, d.prefix, d.username, d.password)
          case HostKind => ctx.host.Some? && w'.host == ProfileOf(ctx.host.value))
  }

  /** The state stays on the way when an action only does what it may do. */
  lemma Advance(env: Env, ctx: Context, w0: World, w: World, done: seq<Action>, a: Action, w': World, status: Status)
    requires OnTheWay(env, w0, w, done) && StepDoes(env, ctx, w, a, w', status)
    requires GoodRecords(w'.store.deployments) && GoodRegistries(w'.store.registries)
    requires forall id :: id in w'.store.deployments ==>
               (id in w.store.deployments && w'.store.deployments[id].name == w.store.deployments[id].name) ||
               env.newId(DeploymentKind, w'.store.deployments[id].name) == Some(id)
    requires forall i :: 0 <= i < |w'.store.registries| ==>
               (exists k :: 0 <= k < |w.store.registries| && w.store.registries[k].id == w'.store.registries[i].id &&
                            w.store.registries[k].prefix == w'.store.registries[i].prefix) ||
               env.newId(RegistryKind, w'.store.registries[i].prefix) == Some(w'.store.registries[i].id)
    ensures OnTheWay(env, w0, w', done + [a])
  {
    hide GoodRecords, GoodRegistries, WritesDesired, Store.Normalized, ProfileOf;
    assert a in done + [a];
    forall n | Untouched(done + [a], DeploymentKind, n)
      ensures Rec(w'.store.deployments, n) == Rec(w0.store.deployments, n)
    {
      assert Untouched(done, DeploymentKind, n) by { forall x | x in done ensures x in done + [a] {} }
      assert !Touches(a, DeploymentKind, n);
    }
    forall p | Untouched(done + [a], RegistryKind, p)
      ensures RegRec(w'.store.registries, p) == RegRec(w0.store.registries, p)
    {
      assert Untouched(done, RegistryKind, p) by { forall x | x in done ensures x in done + [a] {} }
      assert !Touches(a, RegistryKind, p);
    }
  }

  predicate KnownModes(ms: seq<VolumeMount>) { forall i :: 0 <= i < |ms| ==> KnownMode(ms[i]) }

  predicate KnownMode(m: VolumeMount) {
    var mode := ToLower(TrimSpace(m.mode));
    mode == "managed" || mode == "bind"
  }

  ghost predicate Good(ctx: Context, env: Env, desired: Spec, w0: World) {
    && FreshIds(env, w0) && ContextFits(env, ctx, desired, w0)
    && (forall d :: d in desired.deployments ==> Trimmed(d.name) && KnownModes(d.volumeMounts))
    && (forall r :: r in desired.registries ==> ValidRegistry(r) && SpelledRegistry(r))
  }

  lemma CreateStep(env: Env, ctx: Context, desired: Spec, w0: World, w: World, done: seq<Action>, a: Action)
    requires Good(ctx, env, desired, w0) && OnTheWay(env, w0, w, done) && Fits(ctx, w0, a)
    requires a.kind.DeploymentKind? && a.verb.CreateVerb? && Untouched(done, DeploymentKind, a.change.resource)
    ensures var (w', status) := Step(env, ctx, w, a);
            StepDoes(env, ctx, w, a, w', status) && OnTheWay(env, w0, w', done + [a])
  {
    hide HashBasicAuth, BindingsOf, ExportFileMounts, StoredSecurity, TrimSpace, Trimmed, GeneratedId,
         ValidRegistry, SpelledRegistry, GoodRegistries, RegRec;
    var n := a.change.resource;
    var (w', status) := Step(env, ctx, w, a);
    if status.Applied? {
      var id := env.newId(DeploymentKind, n).value;
      var d := FromDesired(env, ctx.deployments[n], id).value;
      assert d.name == n && d.id == id;
      assert id !in w.store.deployments by {
        if id in w.store.deployments {
          var m := w.store.deployments[id].name;
          assert env.newId(DeploymentKind, m) == Some(id);
          RecOf(w.store.deployments, id);
        }
      }
      RecNone(w.store.deployments, n);
      PutRecord(w.store.deployments, d);
      assert WritesDesired(env, ctx.deployments[n], d);
    }
    Advance(env, ctx, w0, w, done, a, w', status);
  }

  predicate SameVerdict(record: Store.Deployment, other: Store.Deployment) {
    record.status == other.status && record.reason == other.reason && record.error == other.error
  }

  /** The record that an update writes is the desired one under the old name and id. */
  lemma UpdateWrites(env: Env, d: Deployment, existing: Store.Deployment, changes: seq<string>)
    requires FromDesired(env, d, existing.id).Some?
    ensures var record := UpdatedRecord(FromDesired(env, d, existing.id).value, existing, changes);
            record.name == TrimSpace(d.name) && record.id == existing.id && WritesDesired(env, d, record) &&
            (if RedeployRequired(changes)
             then record.status == Store.Deploying && record.reason == "" && record.error == ""
             else SameVerdict(record, existing))
  {
    hide HashBasicAuth, BindingsOf, ExportFileMounts, StoredSecurity, TrimSpace, Trimmed, RedeployRequired;
  }

  /** An update fails and changes nothing, or puts the updated record under the id of the old one. */
  lemma UpdateLands(env: Env, ctx: Context, w: World, a: Action)
    requires a.kind.DeploymentKind? && a.verb.UpdateVerb?
    ensures var n := a.change.resource; var (w', status) := Step(env, ctx, w, a);
            (status.Failed? && w' == w) ||
            (status.Applied? && n in ctx.deployments && n in ctx.liveByName &&
             FromDesired(env, ctx.deployments[n], ctx.liveByName[n].id).Some? &&
             var d := UpdatedRecord(FromDesired(env, ctx.deployments[n], ctx.liveByName[n].id).value, ctx.liveByName[n],
                                    a.change.changes);
             d.id in w.store.deployments && w' == w.(store := w.store.(deployments := w.store.deployments[d.id := d])))
  {
    hide FromDesired, UpdatedRecord;
  }

  /** The live record that the context holds is still stored. */
  lemma StillStored(env: Env, ctx: Context, desired: Spec, w0: World, w: World, done: seq<Action>, n: string)
    requires Good(ctx, env, desired, w0) && OnTheWay(env, w0, w, done) && Untouched(done, DeploymentKind, n) &&
             n in ctx.liveByName
    ensures GoodRecords(w.store.deployments) && Rec(w.store.deployments, n) == Some(ctx.liveByName[n])
  {
    hide GeneratedId, ValidRegistry, SpelledRegistry, GoodRegistries, RegRec, StoredUnder, Store.IdsIn, Untouched,
         GoodRecords;
  }

  lemma UpdateEffect(env: Env, ctx: Context, desired: Spec, w0: World, w: World, done: seq<Action>, a: Action)
    requires Good(ctx, env, desired, w0) && OnTheWay(env, w0, w, done) && Fits(ctx, w0, a)
    requires a.kind.DeploymentKind? && a.verb.UpdateVerb? && Untouched(done, DeploymentKind, a.change.resource)
    ensures var (w', status) := Step(env, ctx, w, a);
            StepDoes(env, ctx, w, a, w', status) && GoodRecords(w'.store.deployments) &&
            w'.store.registries == w.store.registries && w'.store.deployments.Keys == w.store.deployments.Keys &&
            forall id :: id in w.store.deployments ==> w'.store.deployments[id].name == w.store.deployments[id].name
  {
    hide Step, FromDesired, UpdatedRecord, WritesDesired, TrimSpace, Trimmed, GoodRegistries, RegRec, OnTheWay,
         Good;
    var n := a.change.resource;
    var (w', status) := Step(env, ctx, w, a);
    UpdateLands(env, ctx, w, a);
    assert GoodRecords(w.store.deployments) by { OnTheWayGood(env, w0, w, done); }
    if status.Applied? {
      var existing := ctx.liveByName[n];
      StillStored(env, ctx, desired, w0, w, done, n);
      RecSome(w.store.deployments, n);
      var d := UpdatedRecord(FromDesired(env, ctx.deployments[n], existing.id).value, existing, a.change.changes);
      UpdateWrites(env, ctx.deployments[n], existing, a.change.changes);
      DesiredName(env, ctx, desired, w0, n);
      PutRecord(w.store.deployments, d);
    }
  }

  lemma OnTheWayGood(env: Env, w0: World, w: World, done: seq<Action>)
    requires OnTheWay(env, w0, w, done)
    ensures GoodRecords(w.store.deployments) && GoodRegistries(w.store.registries)
  {
  }

  lemma DesiredName(env: Env, ctx: Context, desired: Spec, w0: World, n: string)
    requires Good(ctx, env, desired, w0) && n in ctx.deployments
    ensures TrimSpace(ctx.deployments[n].name) == n
  {
    hide FreshIds, ValidRegistry, SpelledRegistry;
  }

  lemma UpdateStep(env: Env, ctx: Context, desired: Spec, w0: World, w: World, done: seq<Action>, a: Action)
    requires Good(ctx, env, desired, w0) && OnTheWay(env, w0, w, done) && Fits(ctx, w0, a)
    requires a.kind.DeploymentKind? && a.verb.UpdateVerb? && Untouched(done, DeploymentKind, a.change.resource)
    ensures var (w', status) := Step(env, ctx, w, a);
            StepDoes(env, ctx, w, a, w', status) && OnTheWay(env, w0, w', done + [a])
  {
    hide Step, StepDoes, GoodRecords, GoodRegistries, Good, Fits, Rec, RegRec, StoredUnder, Store.IdsIn, Untouched;
    var (w', status) := Step(env, ctx, w, a);
    UpdateEffect(env, ctx, desired, w0, w, done, a);
    Advance(env, ctx, w0, w, done, a, w', status);
  }

  lemma DeleteStep(env: Env, ctx: Context, desired: Spec, w0: World, w: World, done: seq<Action>, a: Action)
    requires Good(ctx, env, desired, w0) && OnTheWay(env, w0, w, done) && Fits(ctx, w0, a)
    requires a.kind.DeploymentKind? && a.verb.DeleteVerb? && Untouched(done, DeploymentKind, a.change.resource)
    ensures var (w', status) := Step(env, ctx, w, a);
            StepDoes(env, ctx, w, a, w', status) && OnTheWay(env, w0, w', done + [a])
  {
    hide GeneratedId, ValidRegistry, SpelledRegistry, GoodRegistries, RegRec, Trimmed;
    var n := a.change.resource;
    var (w', status) := Step(env, ctx, w, a);
    if status.Applied? {
      assert Rec(w.store.deployments, n) == Some(ctx.liveByName[n]);
      RecSome(w.store.deployments, n);
      DropRecord(w.store.deployments, ctx.liveByName[n].id);
    }
    Advance(env, ctx, w0, w, done, a, w', status);
  }

  lemma RegistryCreateStep(env: Env, ctx: Context, desired: Spec, w0: World, w: World, done: seq<Action>, a: Action)
    requires Good(ctx, env, desired, w0) && OnTheWay(env, w0, w, done) && Fits(ctx, w0, a)
    requires a.kind.RegistryKind? && a.verb.CreateVerb? && Untouched(done, RegistryKind, a.change.resource)
    ensures var (w', status) := Step(env, ctx, w, a);
            StepDoes(env, ctx, w, a, w', status) && OnTheWay(env, w0, w', done + [a])
  {
    hide GeneratedId, Trimmed, ValidRegistry, Store.NormalizePrefix, TrimSpace, Rec, RegRec, GoodRecords;
    var p, rs := a.change.resource, w.store.registries;
    var (w', status) := Step(env, ctx, w, a);
    if status.Applied? {
      var d, id := ctx.registries[p], env.newId(RegistryKind, p).value;
      var r := Store.Normalized(id, d.prefix, d.username, d.password);
      assert d in desired.registries && r.prefix == p;
      forall i | 0 <= i < |rs| ensures rs[i].id != id { RegRecAt(rs, i); }
      AddRegistry(rs, r);
      assert w'.store.registries == rs + [r];
      forall i | 0 <= i < |rs| ensures (rs + [r])[i].id == rs[i].id && (rs + [r])[i].prefix == rs[i].prefix {}
    }
    Advance(env, ctx, w0, w, done, a, w', status);
  }

  /** The live registry that the context holds is still stored, under the id of the context. */
  lemma RegistryStillStored(env: Env, ctx: Context, desired: Spec, w0: World, w: World, done: seq<Action>, p: string)
    requires Good(ctx, env, desired, w0) && OnTheWay(env, w0, w, done) && Untouched(done, RegistryKind, p)
    requires p in ctx.registryIds
    ensures GoodRegistries(w.store.registries) && RegRec(w.store.registries, p).Some?
    ensures ctx.registryIds[p] == RegRec(w.store.registries, p).value.id
  {
    hide GeneratedId, ValidRegistry, SpelledRegistry, GoodRegistries, RegRec, Rec, StoredUnder, Store.IdsIn, Untouched,
         GoodRecords, FreshIds;
  }

  /** An update fails and changes nothing, or replaces the one entry with the id. */
  lemma RegistryUpdateLands(env: Env, ctx: Context, w: World, a: Action, i: nat)
    requires a.kind.RegistryKind? && a.verb.UpdateVerb? && a.change.resource in ctx.registries
    requires a.change.resource in ctx.registryIds
    requires i < |w.store.registries| && Store.LastWithId(w.store.registries, ctx.registryIds[a.change.resource]) == i
    ensures var d, id := ctx.registries[a.change.resource], ctx.registryIds[a.change.resource];
            var r, (w', status) := Store.Normalized(id, d.prefix, d.username, d.password), Step(env, ctx, w, a);
            (status.Failed? && w' == w) ||
            (status.Applied? && (r.secret != "" ==>
               w' == w.(store := w.store.(registries := w.store.registries[i := r]))))
  {
    hide Store.NormalizePrefix, TrimSpace, Store.PrefixTaken;
  }

  /** A deletion fails and changes nothing, or removes the first entry with the id. */
  lemma RegistryDeleteLands(env: Env, ctx: Context, w: World, a: Action, i: nat)
    requires a.kind.RegistryKind? && a.verb.DeleteVerb? && a.change.resource in ctx.registryIds
    requires i < |w.store.registries| && Store.FirstWithId(w.store.registries, ctx.registryIds[a.change.resource]) == i
    ensures var rs, (w', status) := w.store.registries, Step(env, ctx, w, a);
            (status.Failed? && w' == w) ||
            (status.Applied? && w' == w.(store := w.store.(registries := rs[..i] + rs[i + 1..])))
  {
    hide TrimSpace;
  }

  lemma RegistryUpdateEffect(env: Env, ctx: Context, desired: Spec, w0: World, w: World, done: seq<Action>, a: Action)
    requires Good(ctx, env, desired, w0) && OnTheWay(env, w0, w, done) && Fits(ctx, w0, a)
    requires a.kind.RegistryKind? && a.verb.UpdateVerb? && Untouched(done, RegistryKind, a.change.resource)
    ensures var (w', status) := Step(env, ctx, w, a);
            StepDoes(env, ctx, w, a, w', status) && GoodRegistries(w'.store.registries) &&
            w'.store.deployments == w.store.deployments && |w'.store.registries| == |w.store.registries| &&
            forall k :: 0 <= k < |w.store.registries| ==>
              w'.store.registries[k].id == w.store.registries[k].id &&
              w'.store.registries[k].prefix == w.store.registries[k].prefix
  {
    hide Step, ValidRegistry, SpelledRegistry, Store.NormalizePrefix, TrimSpace, RegRec, GoodRecords, OnTheWay, Good,
         Fits,
         WritesDesired, ProfileOf, Store.UniqueIds, Store.UniquePrefixes, Store.LastWithId, Store.FirstWithId;
    var p, rs := a.change.resource, w.store.registries;
    var (w', status) := Step(env, ctx, w, a);
    FitsContext(env, ctx, desired, w0, a);
    OnTheWayGood(env, w0, w, done);
    var d, id := ctx.registries[p], ctx.registryIds[p];
    var r := Store.Normalized(id, d.prefix, d.username, d.password);
    RegistryStillStored(env, ctx, desired, w0, w, done, p);
    RegistryRoundTrip(d, id);
    var i := RegRecSome(rs, p);
    OnlyWithId(rs, i);
    RegistryUpdateLands(env, ctx, w, a, i);
    SetRegistry(rs, i, r);
  }

  lemma FitsContext(env: Env, ctx: Context, desired: Spec, w0: World, a: Action)
    requires Good(ctx, env, desired, w0) && Fits(ctx, w0, a)
    requires a.kind.RegistryKind? && (a.verb.UpdateVerb? || a.verb.DeleteVerb?)
    ensures a.change.resource in ctx.registryIds
    ensures a.verb.UpdateVerb? ==>
              a.change.resource in ctx.registries && ctx.registries[a.change.resource].prefix == a.change.resource &&
              ValidRegistry(ctx.registries[a.change.resource]) && SpelledRegistry(ctx.registries[a.change.resource])
  {
    hide ValidRegistry, SpelledRegistry, RegRec, Rec, FreshIds, Trimmed;
  }

  lemma RegistryUpdateStep(env: Env, ctx: Context, desired: Spec, w0: World, w: World, done: seq<Action>, a: Action)
    requires Good(ctx, env, desired, w0) && OnTheWay(env, w0, w, done) && Fits(ctx, w0, a)
    requires a.kind.RegistryKind? && a.verb.UpdateVerb? && Untouched(done, RegistryKind, a.change.resource)
    ensures var (w', status) := Step(env, ctx, w, a);
            StepDoes(env, ctx, w, a, w', status) && OnTheWay(env, w0, w', done + [a])
  {
    hide Step, StepDoes, GoodRecords, GoodRegistries, Good, Fits, Rec, RegRec, StoredUnder, Store.IdsIn, Untouched;
    var (w', status) := Step(env, ctx, w, a);
    RegistryUpdateEffect(env, ctx, desired, w0, w, done, a);
    Advance(env, ctx, w0, w, done, a, w', status);
  }

  lemma RegistryDeleteEffect(env: Env, ctx: Context, desired: Spec, w0: World, w: World, done: seq<Action>, a: Action)
    requires Good(ctx, env, desired, w0) && OnTheWay(env, w0, w, done) && Fits(ctx, w0, a)
    requires a.kind.RegistryKind? && a.verb.DeleteVerb? && Untouched(done, RegistryKind, a.change.resource)
    ensures var (w', status) := Step(env, ctx, w, a);
            StepDoes(env, ctx, w, a, w', status) && GoodRegistries(w'.store.registries) &&
            w'.store.deployments == w.store.deployments &&
            forall k :: 0 <= k < |w'.store.registries| ==> w'.store.registries[k] in w.store.registries
  {
    hide Step, RegRec, GoodRecords, OnTheWay, Good, Fits, WritesDesired, ProfileOf, Store.Normalized, Store.UniqueIds,
         Store.UniquePrefixes, Store.LastWithId, Store.FirstWithId;
    var p, rs := a.change.resource, w.store.registries;
    var (w', status) := Step(env, ctx, w, a);
    FitsContext(env, ctx, desired, w0, a);
    OnTheWayGood(env, w0, w, done);
    RegistryStillStored(env, ctx, desired, w0, w, done, p);
    var i := RegRecSome(rs, p);
    OnlyWithId(rs, i);
    RegistryDeleteLands(env, ctx, w, a, i);
    DropRegistry(rs, i);
    var qs := rs[..i] + rs[i + 1..];
    forall k | 0 <= k < |qs| ensures qs[k] in rs { assert qs[k] == rs[if k < i then k else k + 1]; }
  }

  lemma RegistryDeleteStep(env: Env, ctx: Context, desired: Spec, w0: World, w: World, done: seq<Action>, a: Action)
    requires Good(ctx, env, desired, w0) && OnTheWay(env, w0, w, done) && Fits(ctx, w0, a)
    requires a.kind.RegistryKind? && a.verb.DeleteVerb? && Untouched(done, RegistryKind, a.change.resource)
    ensures var (w', status) := Step(env, ctx, w, a);
            StepDoes(env, ctx, w, a, w', status) && OnTheWay(env, w0, w', done + [a])
  {
    hide Step, StepDoes, GoodRecords, GoodRegistries, Good, Fits, Rec, RegRec, StoredUnder, Store.IdsIn, Untouched;
    var (w', status) := Step(env, ctx, w, a);
    RegistryDeleteEffect(env, ctx, desired, w0, w, done, a);
    Advance(env, ctx, w0, w, done, a, w', status);
  }

  lemma PassiveStep(env: Env, ctx: Context, desired: Spec, w0: World, w: World, done: seq<Action>, a: Action)
    requires Good(ctx, env, desired, w0) && OnTheWay(env, w0, w, done) && Fits(ctx, w0, a)
    requires a.kind.HostKind? || a.verb.NoopVerb?
    ensures var (w', status) := Step(env, ctx, w, a);
            StepDoes(env, ctx, w, a, w', status) && OnTheWay(env, w0, w', done + [a])
  {
    hide GeneratedId, Trimmed, ValidRegistry, SpelledRegistry, Rec, RegRec, GoodRecords, GoodRegistries, ProfileOf;
    var (w', status) := Step(env, ctx, w, a);
    Advance(env, ctx, w0, w, done, a, w', status);
  }

  /** Every action of a fitting plan does what it may do and keeps the run on its way. */
  lemma AnyStep(env: Env, ctx: Context, desired: Spec, w0: World, w: World, done: seq<Action>, a: Action)
    requires Good(ctx, env, desired, w0) && OnTheWay(env, w0, w, done) && Fits(ctx, w0, a)
    requires a.verb != NoopVerb ==> Untouched(done, a.kind, a.change.resource)
    ensures var (w', status) := Step(env, ctx, w, a);
            StepDoes(env, ctx, w, a, w', status) && OnTheWay(env, w0, w', done + [a])
  {
    hide Good, OnTheWay, Fits, Step, StepDoes, Untouched;
    match (a.kind, a.verb)
    case (HostKind, _) => PassiveStep(env, ctx, desired, w0, w, done, a);
    case (_, NoopVerb) => PassiveStep(env, ctx, desired, w0, w, done, a);
    case (DeploymentKind, CreateVerb) => CreateStep(env, ctx, desired, w0, w, done, a);
    case (DeploymentKind, UpdateVerb) => UpdateStep(env, ctx, desired, w0, w, done, a);
    case (DeploymentKind, DeleteVerb) => DeleteStep(env, ctx, desired, w0, w, done, a);
    case (RegistryKind, CreateVerb) => RegistryCreateStep(env, ctx, desired, w0, w, done, a);
    case (RegistryKind, UpdateVerb) => RegistryUpdateStep(env, ctx, desired, w0, w, done, a);
    case (RegistryKind, DeleteVerb) => RegistryDeleteStep(env, ctx, desired, w0, w, done, a);
  }

  // ---------------------------------------------------------------- a whole run

  /** No action of the plan is repeated, and two actions never touch the same resource. */
  ghost predicate NoClash(acts: seq<Action>) {
    forall i, j :: 0 <= i < j < |acts| && acts[j].verb != NoopVerb ==>
      !Touches(acts[i], acts[j].kind, acts[j].change.resource)
  }

  lemma {:induction false} RunStaysOnTheWay(env: Env, ctx: Context, desired: Spec, w0: World, acts: seq<Action>, k: nat)
    requires Good(ctx, env, desired, w0) && OnTheWay(env, w0, w0, []) && k <= |acts| && NoClash(acts)
    requires forall a :: a in acts ==> Fits(ctx, w0, a)
    ensures OnTheWay(env, w0, RunActions(env, ctx, w0, acts[..k]), acts[..k])
  {
    hide Good, OnTheWay, Fits, Step, StepDoes;
    if k == 0 {
      assert acts[..0] == [];
    } else {
      RunStaysOnTheWay(env, ctx, desired, w0, acts, k - 1);
      StepAt(env, ctx, desired, w0, acts, k - 1);
      assert acts[..k] == acts[..k - 1] + [acts[k - 1]];
      assert acts[..k][..k - 1] == acts[..k - 1];
    }
  }

  lemma StepAt(env: Env, ctx: Context, desired: Spec, w0: World, acts: seq<Action>, i: nat)
    requires Good(ctx, env, desired, w0) && i < |acts| && NoClash(acts)
    requires forall a :: a in acts ==> Fits(ctx, w0, a)
    requires OnTheWay(env, w0, RunActions(env, ctx, w0, acts[..i]), acts[..i])
    ensures var w := RunActions(env, ctx, w0, acts[..i]);
            var (w', status) := Step(env, ctx, w, acts[i]);
            StepDoes(env, ctx, w, acts[i], w', status) && OnTheWay(env, w0, w', acts[..i] + [acts[i]]) &&
            w' == RunActions(env, ctx, w0, acts[..i + 1])
  {
    hide Good, OnTheWay, Fits, Step, StepDoes;
    var a := acts[i];
    assert a in acts;
    if a.verb != NoopVerb {
      forall x | x in acts[..i] ensures !Touches(x, a.kind, a.change.resource) {
        var k :| 0 <= k < i && acts[k] == x;
      }
    }
    assert acts[..i + 1][..i] == acts[..i];
    AnyStep(env, ctx, desired, w0, RunActions(env, ctx, w0, acts[..i]), acts[..i], a);
  }

  /** What later actions leave alone. */
  lemma {:induction false} LaterActions(env: Env, ctx: Context, desired: Spec, w0: World, acts: seq<Action>, i: nat,
                                        k: nat, kind: Kind, n: string)
    requires Good(ctx, env, desired, w0) && OnTheWay(env, w0, w0, []) && NoClash(acts)
    requires forall a :: a in acts ==> Fits(ctx, w0, a)
    requires i <= k <= |acts| && forall j :: i <= j < k ==> !Touches(acts[j], kind, n)
    ensures var w, v := RunActions(env, ctx, w0, acts[..i]), RunActions(env, ctx, w0, acts[..k]);
            match kind
            case DeploymentKind => Rec(v.store.deployments, n) == Rec(w.store.deployments, n)
            case RegistryKind => RegRec(v.store.registries, n) == RegRec(w.store.registries, n)
            case HostKind => n == HOST ==> v.host == w.host
    decreases k
  {
    hide Good, OnTheWay, Step, WritesDesired, Rec, RegRec;
    if i < k {
      LaterActions(env, ctx, desired, w0, acts, i, k - 1, kind, n);
      RunStaysOnTheWay(env, ctx, desired, w0, acts, k - 1);
      StepAt(env, ctx, desired, w0, acts, k - 1);
      assert acts[k - 1] in acts && !Touches(acts[k - 1], kind, n);
    }
  }

  // ---------------------------------------------------------------- the actions of a plan

  predicate Planned(p: PlanDoc, a: Action) {
    match (a.kind, a.verb)
    case (RegistryKind, NoopVerb) => a.change in p.registries.noop
    case (RegistryKind, CreateVerb) => a.change in p.registries.create
    case (RegistryKind, UpdateVerb) => a.change in p.registries.update
    case (RegistryKind, DeleteVerb) => a.change in p.registries.delete
    case (DeploymentKind, NoopVerb) => a.change in p.deployments.noop
    case (DeploymentKind, CreateVerb) => a.change in p.deployments.create
    case (DeploymentKind, UpdateVerb) => a.change in p.deployments.update
    case (DeploymentKind, DeleteVerb) => a.change in p.deployments.delete
    case (HostKind, NoopVerb) => a.change in p.hostNoop
    case (HostKind, UpdateVerb) => a.change in p.hostUpdate
    case (HostKind, _) => false
  }

  lemma SectionMembers(kind: Kind, verb: Verb, changes: seq<Change>, a: Action)
    ensures a in Section(kind, verb, changes) <==> a.kind == kind && a.verb == verb && a.change in changes
  {
    var s := Section(kind, verb, changes);
    if a.kind == kind && a.verb == verb && a.change in changes {
      var i :| 0 <= i < |changes| && changes[i] == a.change;
      assert s[i] == a;
    }
  }

  lemma ActionsMembers(p: PlanDoc, a: Action)
    ensures a in ActionsOf(p) <==> Planned(p, a)
  {
    SectionMembers(RegistryKind, NoopVerb, p.registries.noop, a);
    SectionMembers(RegistryKind, CreateVerb, p.registries.create, a);
    SectionMembers(RegistryKind, UpdateVerb, p.registries.update, a);
    SectionMembers(RegistryKind, DeleteVerb, p.registries.delete, a);
    SectionMembers(DeploymentKind, NoopVerb, p.deployments.noop, a);
    SectionMembers(DeploymentKind, CreateVerb, p.deployments.create, a);
    SectionMembers(DeploymentKind, UpdateVerb, p.deployments.update, a);
    SectionMembers(DeploymentKind, DeleteVerb, p.deployments.delete, a);
    SectionMembers(HostKind, NoopVerb, p.hostNoop, a);
    SectionMembers(HostKind, UpdateVerb, p.hostUpdate, a);
    hide Section;
  }

  predicate NoDuplicates<T(==)>(s: seq<T>) { forall i, j :: 0 <= i < j < |s| ==> s[i] != s[j] }

  /** Appending a section of a new kind and verb to a list without duplicates. */
  lemma AppendSection(x: seq<Action>, tags: set<(Kind, Verb)>, kind: Kind, verb: Verb, changes: seq<Change>)
    requires NoDuplicates(x) && NoDuplicates(changes) && (kind, verb) !in tags
    requires forall a :: a in x ==> (a.kind, a.verb) in tags
    ensures NoDuplicates(x + Section(kind, verb, changes))
    ensures forall a :: a in x + Section(kind, verb, changes) ==> (a.kind, a.verb) in tags + {(kind, verb)}
  {
    var s := Section(kind, verb, changes);
    var y := x + s;
    forall i, j | 0 <= i < j < |y| ensures y[i] != y[j] {
      if |x| <= i {
        assert y[i] == s[i - |x|] && y[j] == s[j - |x|];
      } else if |x| <= j {
        assert y[i] == x[i] && y[i] in x && y[j] == s[j - |x|];
      }
    }
  }

  lemma ActionsNoDuplicates(p: PlanDoc)
    requires NoDuplicates(p.registries.noop) && NoDuplicates(p.registries.create) && NoDuplicates(p.registries.update)
    requires NoDuplicates(p.registries.delete) && NoDuplicates(p.deployments.noop) && NoDuplicates(p.deployments.create)
    requires NoDuplicates(p.deployments.update) && NoDuplicates(p.deployments.delete)
    requires NoDuplicates(p.hostNoop) && NoDuplicates(p.hostUpdate)
    ensures NoDuplicates(ActionsOf(p))
  {
    hide Section, NoDuplicates;
    var x: seq<Action>, t: set<(Kind, Verb)> := Section(RegistryKind, NoopVerb, p.registries.noop),
        {(RegistryKind, NoopVerb)};
    FirstSection(RegistryKind, NoopVerb, p.registries.noop);
    AppendSection(x, t, RegistryKind, CreateVerb, p.registries.create);
    x, t := x + Section(RegistryKind, CreateVerb, p.registries.create), t + {(RegistryKind, CreateVerb)};
    AppendSection(x, t, RegistryKind, UpdateVerb, p.registries.update);
    x, t := x + Section(RegistryKind, UpdateVerb, p.registries.update), t + {(RegistryKind, UpdateVerb)};
    AppendSection(x, t, DeploymentKind, NoopVerb, p.deployments.noop);
    x, t := x + Section(DeploymentKind, NoopVerb, p.deployments.noop), t + {(DeploymentKind, NoopVerb)};
    AppendSection(x, t, DeploymentKind, CreateVerb, p.deployments.create);
    x, t := x + Section(DeploymentKind, CreateVerb, p.deployments.create), t + {(DeploymentKind, CreateVerb)};
    AppendSection(x, t, DeploymentKind, UpdateVerb, p.deployments.update);
    x, t := x + Section(DeploymentKind, UpdateVerb, p.deployments.update), t + {(DeploymentKind, UpdateVerb)};
    AppendSection(x, t, HostKind, NoopVerb, p.hostNoop);
    x, t := x + Section(HostKind, NoopVerb, p.hostNoop), t + {(HostKind, NoopVerb)};
    AppendSection(x, t, HostKind, UpdateVerb, p.hostUpdate);
    x, t := x + Section(HostKind, UpdateVerb, p.hostUpdate), t + {(HostKind, UpdateVerb)};
    AppendSection(x, t, DeploymentKind, DeleteVerb, p.deployments.delete);
    x, t := x + Section(DeploymentKind, DeleteVerb, p.deployments.delete), t + {(DeploymentKind, DeleteVerb)};
    AppendSection(x, t, RegistryKind, DeleteVerb, p.registries.delete);
  }

  lemma FirstSection(kind: Kind, verb: Verb, changes: seq<Change>)
    requires NoDuplicates(changes)
    ensures NoDuplicates(Section(kind, verb, changes))
    ensures forall a :: a in Section(kind, verb, changes) ==> (a.kind, a.verb) in {(kind, verb)}
  {
    AppendSection([], {}, kind, verb, changes);
    assert [] + Section(kind, verb, changes) == Section(kind, verb, changes);
  }

  ghost predicate NamesItself(f: string -> Option<Change>) {
    forall n: string :: f(n).Some? ==> f(n).value.resource == n
  }

  lemma {:induction false} SelectNoDuplicates(names: seq<string>, f: string -> Option<Change>)
    requires StrictlySortedBy(Self, names) && NamesItself(f)
    ensures NoDuplicates(Select(names, f))
  {
    if names != [] {
      forall i, j | 0 <= i < j < |names[1..]| ensures Less(Self(names[1..][i]), Self(names[1..][j])) {
        assert Less(Self(names[i + 1]), Self(names[j + 1]));
      }
      SelectNoDuplicates(names[1..], f);
      var rest := Select(names[1..], f);
      forall c | c in rest ensures c.resource != names[0] {
        SelectMembers(names[1..], f, c);
        var n :| n in names[1..] && f(n) == Some(c);
        var k :| 0 <= k < |names| - 1 && names[1..][k] == n;
        assert Less(Self(names[0]), Self(names[k + 1]));
      }
    }
  }

  lemma PlanNoDuplicates<T>(desired: map<string, T>, live: map<string, T>, diff: (T, T) -> seq<string>)
    ensures var a := PlanActions(desired, live, diff);
            NoDuplicates(a.create) && NoDuplicates(a.update) && NoDuplicates(a.delete) && NoDuplicates(a.noop)
  {
    hide NoDuplicates, Select;
    var names, liveNames := KeysInOrder(desired.Keys), KeysInOrder(live.Keys);
    SelectNoDuplicates(names, CreateOf(desired, live));
    SelectNoDuplicates(names, UpdateOf(desired, live, diff));
    SelectNoDuplicates(names, NoopOf(desired, live, diff));
    SelectNoDuplicates(liveNames, DeleteOf(desired, live));
  }
}
