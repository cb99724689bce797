/** Why an action of an apply can fail: only because of its environment. */
module ApplyFaults {
  import opened Text
  import opened Ordering
  import opened Paths
  import opened ConfigV1
  import opened Plan
  import opened Build
  import opened Export
  import opened Apply
  import opened RoundTrip
  import opened Views
  import opened ApplySteps
  import Store

  /** bcrypt refuses the password of some user. */
  predicate CannotHash(env: Env, d: Deployment) {
    d.basicAuth.Some? && exists i :: 0 <= i < |d.basicAuth.value| && Unhashable(env, d.basicAuth.value[i])
  }

  predicate Unhashable(env: Env, u: User) {
    var password := TrimSpace(u.password);
    !env.isHash(password) && env.hash(password).None?
  }

  /** The causes of a failure: the store refuses the write, no id can be drawn, a password cannot be
      hashed, or the stored id of the registry is blank. */
  predicate Excused(env: Env, ctx: Context, a: Action) {
    var n := a.change.resource;
    || !env.io(a.kind, n)
    || (a.verb.CreateVerb? && (env.newId(a.kind, n).None? || env.newId(a.kind, n).value == ""))
    || (a.kind.DeploymentKind? && n in ctx.deployments && CannotHash(env, ctx.deployments[n]))
    || (a.kind.RegistryKind? && n in ctx.registryIds && TrimSpace(ctx.registryIds[n]) == "")
  }

  // ---------------------------------------------------------------- conversion

  lemma {:induction false} HashFails(env: Env, users: seq<User>)
    ensures HashUsers(env, users).None? ==> exists i :: 0 <= i < |users| && Unhashable(env, users[i])
  {
    hide TrimSpace, Trimmed;
    if users != [] {
      HashFails(env, users[1..]);
      if HashUsers(env, users[1..]).None? {
        var i :| 0 <= i < |users[1..]| && Unhashable(env, users[1..][i]);
        assert Unhashable(env, users[i + 1]);
      } else if HashUser(env, users[0]).None? {
        assert Unhashable(env, users[0]);
      }
    }
  }

  lemma {:induction false} KnownModesBind(base: string, id: string, ms: seq<VolumeMount>)
    requires KnownModes(ms)
    ensures BindingsOf(base, id, ms).Some?
  {
    hide TrimSpace, Trimmed, ToLower, JoinPath;
    if ms != [] {
      assert KnownMode(ms[0]);
      forall i | 0 <= i < |ms[1..]| ensures KnownMode(ms[1..][i]) { assert KnownMode(ms[i + 1]); }
      KnownModesBind(base, id, ms[1..]);
    }
  }

  lemma ConversionFails(env: Env, d: Deployment, id: string)
    requires KnownModes(d.volumeMounts) && FromDesired(env, d, id).None?
    ensures CannotHash(env, d)
  {
    hide HashUsers, BindingsOf, StoredSecurity, ExportFileMounts, TrimSpace, Unhashable, KnownModes;
    KnownModesBind(env.base, id, d.volumeMounts);
    if d.basicAuth.Some? { HashFails(env, d.basicAuth.value); }
  }

  // ---------------------------------------------------------------- one action

  lemma DesiredModes(env: Env, ctx: Context, desired: Spec, w0: World, n: string)
    requires Good(ctx, env, desired, w0) && n in ctx.deployments
    ensures KnownModes(ctx.deployments[n].volumeMounts) && TrimSpace(ctx.deployments[n].name) == n
  {
    hide FreshIds, ValidRegistry, SpelledRegistry, KnownModes;
  }

  lemma CreateFails(env: Env, ctx: Context, desired: Spec, w0: World, w: World, done: seq<Action>, a: Action)
    requires Good(ctx, env, desired, w0) && OnTheWay(env, w0, w, done) && Fits(ctx, w0, a)
    requires a.kind.DeploymentKind? && a.verb.CreateVerb? && Untouched(done, DeploymentKind, a.change.resource)
    ensures Step(env, ctx, w, a).1.Failed? ==> Excused(env, ctx, a)
  {
    hide Good, OnTheWay, Fits, Untouched, KnownModes, HashBasicAuth, BindingsOf, StoredSecurity, ExportFileMounts,
         TrimSpace, Trimmed, CannotHash, Rec;
    var n, id := a.change.resource, env.newId(DeploymentKind, a.change.resource);
    NameAbsent(env, ctx, desired, w0, w, done, a);
    RecNone(w.store.deployments, n);
    DesiredModes(env, ctx, desired, w0, n);
    if id.Some? && FromDesired(env, ctx.deployments[n], id.value).None? {
      ConversionFails(env, ctx.deployments[n], id.value);
    }
  }

  lemma NameAbsent(env: Env, ctx: Context, desired: Spec, w0: World, w: World, done: seq<Action>, a: Action)
    requires OnTheWay(env, w0, w, done) && Fits(ctx, w0, a)
    requires a.kind.DeploymentKind? && a.verb.CreateVerb? && Untouched(done, DeploymentKind, a.change.resource)
    ensures a.change.resource in ctx.deployments && Rec(w.store.deployments, a.change.resource).None?
  {
    hide RegRec, Rec, GoodRecords, GoodRegistries, Untouched, StoredUnder;
  }

  lemma UpdateFails(env: Env, ctx: Context, desired: Spec, w0: World, w: World, done: seq<Action>, a: Action)
    requires Good(ctx, env, desired, w0) && OnTheWay(env, w0, w, done) && Fits(ctx, w0, a)
    requires a.kind.DeploymentKind? && !a.verb.CreateVerb? && Untouched(done, DeploymentKind, a.change.resource)
    ensures Step(env, ctx, w, a).1.Failed? ==> Excused(env, ctx, a)
  {
    if !a.verb.NoopVerb? {
      var n := a.change.resource;
      assert n in ctx.liveByName && (a.verb.UpdateVerb? ==> n in ctx.deployments);
      StillStored(env, ctx, desired, w0, w, done, n);
      RecSome(w.store.deployments, n);
      if a.verb.UpdateVerb? { DesiredModes(env, ctx, desired, w0, n); }
      hide Good, OnTheWay, Fits, Untouched, KnownModes, FromDesired, UpdatedRecord, TrimSpace, CannotHash, Rec;
      if a.verb.UpdateVerb? {
        UpdateKeepsId(env, ctx.deployments[n], ctx.liveByName[n], a.change.changes);
        if FromDesired(env, ctx.deployments[n], ctx.liveByName[n].id).None? {
          ConversionFails(env, ctx.deployments[n], ctx.liveByName[n].id);
        }
      }
    }
  }

  lemma UpdateKeepsId(env: Env, d: Deployment, existing: Store.Deployment, changes: seq<string>)
    ensures FromDesired(env, d, existing.id).Some? ==>
              UpdatedRecord(FromDesired(env, d, existing.id).value, existing, changes).id == existing.id
  {
    hide HashBasicAuth, BindingsOf, StoredSecurity, ExportFileMounts, TrimSpace, RedeployRequired;
  }

  lemma RegistryCreateFails(env: Env, ctx: Context, desired: Spec, w0: World, w: World, done: seq<Action>, a: Action)
    requires Good(ctx, env, desired, w0) && OnTheWay(env, w0, w, done) && Fits(ctx, w0, a)
    requires a.kind.RegistryKind? && a.verb.CreateVerb? && Untouched(done, RegistryKind, a.change.resource)
    ensures Step(env, ctx, w, a).1.Failed? ==> Excused(env, ctx, a)
  {
    hide Good, OnTheWay, Fits, Untouched, Store.NormalizePrefix, RegRec, ValidRegistry, SpelledRegistry, TrimSpace;
    var p, rs := a.change.resource, w.store.registries;
    RegistryAbsent(env, ctx, desired, w0, w, done, a);
    var d, id := ctx.registries[p], env.newId(RegistryKind, p);
    if id.Some? { RegistryRoundTrip(d, id.value); }
    NoSuchPrefix(rs, p);
    RegistryTexts(d);
  }

  lemma RegistryAbsent(env: Env, ctx: Context, desired: Spec, w0: World, w: World, done: seq<Action>, a: Action)
    requires Good(ctx, env, desired, w0) && OnTheWay(env, w0, w, done) && Fits(ctx, w0, a)
    requires a.kind.RegistryKind? && a.verb.CreateVerb? && Untouched(done, RegistryKind, a.change.resource)
    ensures a.change.resource in ctx.registries && RegRec(w.store.registries, a.change.resource).None?
    ensures var d := ctx.registries[a.change.resource];
            d.prefix == a.change.resource && ValidRegistry(d) && SpelledRegistry(d)
  {
    hide ValidRegistry, SpelledRegistry, RegRec, Rec, FreshIds, Trimmed, KnownModes, GoodRecords, GoodRegistries,
         Untouched, StoredUnder;
  }

  lemma NoSuchPrefix(rs: seq<Store.Registry>, p: string)
    requires RegRec(rs, p).None?
    ensures forall i :: 0 <= i < |rs| ==> rs[i].prefix != p
  {
  }

  lemma RegistryTexts(d: Registry)
    requires ValidRegistry(d)
    ensures d.prefix != "" && TrimSpace(d.username) != ""
  {
    hide IsPlaceholder;
  }

  lemma RegistryChangeFails(env: Env, ctx: Context, desired: Spec, w0: World, w: World, done: seq<Action>, a: Action)
    requires Good(ctx, env, desired, w0) && OnTheWay(env, w0, w, done) && Fits(ctx, w0, a)
    requires a.kind.RegistryKind? && (a.verb.UpdateVerb? || a.verb.DeleteVerb?)
    requires Untouched(done, RegistryKind, a.change.resource)
    ensures Step(env, ctx, w, a).1.Failed? ==> Excused(env, ctx, a)
  {
    hide Good, OnTheWay, Fits, Untouched, Store.NormalizePrefix, RegRec, ValidRegistry, SpelledRegistry, TrimSpace,
         Store.LastWithId, Store.FirstWithId, Store.UniqueIds, Store.UniquePrefixes, Store.PrefixTaken;
    var p, rs := a.change.resource, w.store.registries;
    FitsContext(env, ctx, desired, w0, a);
    RegistryStillStored(env, ctx, desired, w0, w, done, p);
    var id := ctx.registryIds[p];
    var i := RegRecSome(rs, p);
    OnlyWithId(rs, i);
    if a.verb.UpdateVerb? {
      RegistryRoundTrip(ctx.registries[p], id);
      RegistryTexts(ctx.registries[p]);
      OthersHaveOtherPrefixes(rs, i);
    }
  }

  lemma OthersHaveOtherPrefixes(rs: seq<Store.Registry>, i: int)
    requires GoodRegistries(rs) && 0 <= i < |rs|
    ensures !Store.PrefixTaken(rs, rs[i].prefix, Some(rs[i].id))
  {
  }

  /** An action that fails has a cause in its environment. */
  lemma FailureIsExcused(env: Env, ctx: Context, desired: Spec, w0: World, w: World, done: seq<Action>, a: Action)
    requires Good(ctx, env, desired, w0) && OnTheWay(env, w0, w, done) && Fits(ctx, w0, a)
    requires a.verb != NoopVerb ==> Untouched(done, a.kind, a.change.resource)
    ensures Step(env, ctx, w, a).1.Failed? ==> Excused(env, ctx, a)
  {
    match (a.kind, a.verb)
    case (_, NoopVerb) =>
    case (DeploymentKind, CreateVerb) => CreateFails(env, ctx, desired, w0, w, done, a);
    case (DeploymentKind, _) => UpdateFails(env, ctx, desired, w0, w, done, a);
    case (RegistryKind, CreateVerb) => RegistryCreateFails(env, ctx, desired, w0, w, done, a);
    case (RegistryKind, _) => RegistryChangeFails(env, ctx, desired, w0, w, done, a);
    case (HostKind, _) => hide Good, OnTheWay, Rec, RegRec;
  }
}
