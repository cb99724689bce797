/** The executor (api/internal/configapply/apply.go): a plan carried out against the store. The
    environment decides which ids are drawn, what bcrypt returns and which store calls fail. */
module Apply {
  import opened Text
  import opened Paths
  import opened ConfigV1
  import opened Plan
  import opened Build
  import opened Export
  import Store

  // ---------------------------------------------------------------- conversion

  datatype Kind = DeploymentKind | RegistryKind | HostKind

  /** newId and io are asked once per resource: each resource has one action. */
  datatype Env = Env(base: string, isHash: string -> bool, hash: string -> Option<string>,
                     newId: (Kind, string) -> Option<string>, io: (Kind, string) -> bool)

  function HashUser(env: Env, u: User): Option<User> {
    var password := TrimSpace(u.password);
    var stored := if env.isHash(password) then Some(password) else env.hash(password);
    if stored.None? then None else Some(Store.BasicAuthUser(TrimSpace(u.username), stored.value))
  }

  function HashUsers(env: Env, users: seq<User>): Option<seq<User>> {
    if users == [] then Some([])
    else
      match (HashUser(env, users[0]), HashUsers(env, users[1..]))
      case (Some(u), Some(rest)) => Some([u] + rest)
      case _ => None
  }

  /** hashBasicAuth */
  function HashBasicAuth(env: Env, basicAuth: Option<seq<User>>): Option<Option<seq<User>>> {
    if basicAuth.None? || basicAuth.value == [] then Some(None)
    else
      match HashUsers(env, basicAuth.value)
      case Some(users) => Some(Some(users))
      case None => None
  }

  function BindingOf(base: string, id: string, m: VolumeMount): Option<string> {
    var mode, source, target := ToLower(TrimSpace(m.mode)), TrimSpace(m.source), TrimSpace(m.target);
    if mode == "managed" then Some(JoinPath([base, id, source]) + ":" + target)
    else if mode == "bind" then Some(source + ":" + target)
    else None
  }

  /** volumeBindingsFromMounts */
  function BindingsOf(base: string, id: string, ms: seq<VolumeMount>): Option<seq<string>> {
    if ms == [] then Some([])
    else
      match (BindingOf(base, id, ms[0]), BindingsOf(base, id, ms[1..]))
      case (Some(b), Some(rest)) => Some([b] + rest)
      case _ => None
  }

  function StoredSecurity(s: Option<Security>): Option<Security> {
    if s.None? then None else Some(s.value.(wafMode := TrimSpace(s.value.wafMode)))
  }

  /** deploymentFromDesired; the status of a new record is Deploying. */
  function FromDesired(env: Env, d: Deployment, id: string): Option<Store.Deployment> {
    match (HashBasicAuth(env, d.basicAuth), BindingsOf(env.base, id, d.volumeMounts))
    case (Some(basicAuth), Some(volumes)) =>
      Some(Store.Deployment(id, TrimSpace(d.name), TrimSpace(d.image), d.env, d.ports,
                            if d.proxyPort.Some? then d.proxyPort.value else 0, volumes,
                            ExportFileMounts(d.fileMounts), TrimSpace(d.domain),
                            if d.isPublic.Some? then d.isPublic.value else false, basicAuth,
                            StoredSecurity(d.security), Store.Deploying, "", ""))
    case _ => None
  }

  /** hostProfileFromDesired */
  function ProfileOf(h: Host): HostProfile {
    match h.waf
    case None => HostProfile(TrimSpace(h.displayName), NormalizeAccessMode(h.accessMode), "detection", [], [])
    case Some(w) => HostProfile(TrimSpace(h.displayName), NormalizeAccessMode(h.accessMode), NormalizeWafMode(w.mode),
                                w.ipAllowlist, w.customRules)
  }

  /** redeployRequired */
  predicate RedeployRequired(changes: seq<string>) {
    exists i :: 0 <= i < |changes| &&
      (var f := TrimSpace(changes[i]);
       f == "image" || f == "env" || f == "ports" || f == "proxyPort" || f == "volumeMounts" || f == "basicAuth")
  }

  // ---------------------------------------------------------------- one action

  datatype Verb = NoopVerb | CreateVerb | UpdateVerb | DeleteVerb

  datatype Action = Action(kind: Kind, verb: Verb, change: Change)

  datatype Status = Applied | Noop | Failed

  datatype Outcome = Outcome(kind: Kind, verb: Verb, resource: string, status: Status)

  /** What Execute reads before it starts: the desired resources and a snapshot of the live ones. */
  datatype Context = Context(deployments: map<string, Deployment>, registries: map<string, Registry>,
                             host: Option<Host>,
                             liveByName: map<string, Store.Deployment>, registryIds: map<string, string>)

  function StatusOf<T>(r: Store.Result<T>): Status { if r.Ok? then Applied else Failed }

  /** The record an update writes: the desired one, with the old status unless a redeploy is due. */
  function UpdatedRecord(d: Store.Deployment, existing: Store.Deployment, changes: seq<string>): Store.Deployment {
    if RedeployRequired(changes) then d.(status := Store.Deploying, reason := "", error := "")
    else d.(status := existing.status, reason := existing.reason, error := existing.error)
  }

  function StepDeployment(env: Env, ctx: Context, w: World, verb: Verb, c: Change): (World, Status) {
    var n, io := c.resource, env.io(DeploymentKind, c.resource);
    match verb
    case NoopVerb => (w, Noop)
    case CreateVerb => (
      var id := env.newId(DeploymentKind, n);
      if n !in ctx.deployments || id.None? then (w, Failed)
      else
        match FromDesired(env, ctx.deployments[n], id.value)
        case None => (w, Failed)
        case Some(d) => (var (s, r) := Store.Created(w.store, d, io); (w.(store := s), StatusOf(r))))
    case UpdateVerb => (
      if n !in ctx.deployments || n !in ctx.liveByName then (w, Failed)
      else
        match FromDesired(env, ctx.deployments[n], ctx.liveByName[n].id)
        case None => (w, Failed)
        case Some(d) => (
          var (s, r) := Store.Updated(w.store, UpdatedRecord(d, ctx.liveByName[n], c.changes), io);
          (w.(store := s), StatusOf(r))))
    case DeleteVerb => (
      if n !in ctx.liveByName then (w, Failed)
      else
        var (s, r) := Store.Deleted(w.store, ctx.liveByName[n].id, io);
        (w.(store := s), StatusOf(r)))
  }

  function StepRegistry(env: Env, ctx: Context, w: World, verb: Verb, c: Change): (World, Status) {
    var p, io := c.resource, env.io(RegistryKind, c.resource);
    match verb
    case NoopVerb => (w, Noop)
    case CreateVerb => (
      var id := env.newId(RegistryKind, p);
      if p !in ctx.registries || id.None? then (w, Failed)
      else
        var r := ctx.registries[p];
        var (s, res) := Store.RegistryCreated(w.store, id.value, r.prefix, r.username, r.password, io);
        (w.(store := s), StatusOf(res)))
    case UpdateVerb => (
      if p !in ctx.registries || p !in ctx.registryIds then (w, Failed)
      else
        var r := ctx.registries[p];
        var (s, res) := Store.RegistryUpdated(w.store, ctx.registryIds[p], r.prefix, r.username, r.password, io);
        (w.(store := s), StatusOf(res)))
    case DeleteVerb => (
      if p !in ctx.registryIds then (w, Failed)
      else
        var (s, res) := Store.RegistryDeleted(w.store, ctx.registryIds[p], io);
        (w.(store := s), StatusOf(res)))
  }

  function StepHost(env: Env, ctx: Context, w: World, verb: Verb, c: Change): (World, Status) {
    match verb
    case UpdateVerb =>
      if ctx.host.None? || !env.io(HostKind, c.resource) then (w, Failed)
      else (w.(host := ProfileOf(ctx.host.value)), Applied)
    case _ => (w, Noop)
  }

  function Step(env: Env, ctx: Context, w: World, a: Action): (World, Status) {
    match a.kind
    case DeploymentKind => StepDeployment(env, ctx, w, a.verb, a.change)
    case RegistryKind => StepRegistry(env, ctx, w, a.verb, a.change)
    case HostKind => StepHost(env, ctx, w, a.verb, a.change)
  }

  // ---------------------------------------------------------------- Execute

  function Section(kind: Kind, verb: Verb, changes: seq<Change>): (r: seq<Action>)
    ensures |r| == |changes| && forall i :: 0 <= i < |changes| ==> r[i] == Action(kind, verb, changes[i])
  {
    seq(|changes|, i requires 0 <= i < |changes| => Action(kind, verb, changes[i]))
  }

  /** The actions of a plan in the order in which Execute runs them. */
  function ActionsOf(p: PlanDoc): seq<Action> {
    Section(RegistryKind, NoopVerb, p.registries.noop) + Section(RegistryKind, CreateVerb, p.registries.create) +
    Section(RegistryKind, UpdateVerb, p.registries.update) +
    Section(DeploymentKind, NoopVerb, p.deployments.noop) + Section(DeploymentKind, CreateVerb, p.deployments.create) +
    Section(DeploymentKind, UpdateVerb, p.deployments.update) +
    Section(HostKind, NoopVerb, p.hostNoop) + Section(HostKind, UpdateVerb, p.hostUpdate) +
    Section(DeploymentKind, DeleteVerb, p.deployments.delete) + Section(RegistryKind, DeleteVerb, p.registries.delete)
  }

  /** The state after running the actions one after the other. */
  function RunActions(env: Env, ctx: Context, w: World, actions: seq<Action>): World {
    if actions == [] then w
    else Step(env, ctx, RunActions(env, ctx, w, actions[..|actions| - 1]), actions[|actions| - 1]).0
  }

  function OutcomeAt(env: Env, ctx: Context, w: World, actions: seq<Action>, i: int): Outcome
    requires 0 <= i < |actions|
  {
    var a := actions[i];
    Outcome(a.kind, a.verb, a.change.resource, Step(env, ctx, RunActions(env, ctx, w, actions[..i]), a).1)
  }

  /** liveByName: the listed records by name, the last one winning. */
  function LiveByName(ds: seq<Store.Deployment>): map<string, Store.Deployment> {
    if ds == [] then map[] else LiveByName(ds[..|ds| - 1])[ds[|ds| - 1].name := ds[|ds| - 1]]
  }

  function RegistryIds(rs: seq<Store.Registry>): map<string, string> {
    if rs == [] then map[] else RegistryIds(rs[..|rs| - 1])[rs[|rs| - 1].prefix := rs[|rs| - 1].id]
  }

  function ContextOf(desired: Spec, listed: seq<Store.Deployment>, registries: seq<Store.Registry>): Context {
    Context(ByName(desired.deployments), ByPrefix(desired.registries), desired.host, LiveByName(listed),
            RegistryIds(registries))
  }

  datatype Result = Result(outcomes: seq<Outcome>, applied: nat, noop: nat, failed: nat)

  /** appendOutcome */
  function AppendOutcome(r: Result, o: Outcome): Result {
    Result(r.outcomes + [o],
           if o.status.Applied? then r.applied + 1 else r.applied,
           if o.status.Noop? then r.noop + 1 else r.noop,
           if o.status.Failed? then r.failed + 1 else r.failed)
  }

  function CountStatus(os: seq<Outcome>, s: Status): nat {
    if os == [] then 0 else CountStatus(os[..|os| - 1], s) + (if os[|os| - 1].status == s then 1 else 0)
  }

  predicate Tallied(r: Result) {
    r.applied == CountStatus(r.outcomes, Applied) && r.noop == CountStatus(r.outcomes, Noop) &&
    r.failed == CountStatus(r.outcomes, Failed)
  }

  /** What Execute promises: the actions ran in order and the outcomes report them. */
  ghost predicate Ran(env: Env, ctx: Context, w: World, acts: seq<Action>, w': World, outs: seq<Outcome>) {
    && w' == RunActions(env, ctx, w, acts) && |outs| == |acts|
    && forall i :: 0 <= i < |acts| ==> outs[i] == OutcomeAt(env, ctx, w, acts, i)
  }

  /** The stores that Execute writes to. */
  class Live {
    var world: World

    constructor (w: World)
      ensures world == w
    {
      world := w;
    }

    /** One loop of Execute: the changes of one section, in order. */
    method RunSection(env: Env, ctx: Context, kind: Kind, verb: Verb, changes: seq<Change>, result: Result,
                      ghost start: World, ghost done: seq<Action>)
      returns (r: Result)
      requires Ran(env, ctx, start, done, world, result.outcomes) && Tallied(result)
      modifies this
      ensures Ran(env, ctx, start, done + Section(kind, verb, changes), world, r.outcomes) && Tallied(r)
    {
      hide Step, Ran, Tallied, AppendOutcome;
      r := result;
      ghost var section := Section(kind, verb, changes);
      assert done + section[..0] == done;
      for i := 0 to |changes|
        invariant Ran(env, ctx, start, done + section[..i], world, r.outcomes) && Tallied(r)
      {
        var a := Action(kind, verb, changes[i]);
        ghost var before := done + section[..i];
        assert done + section[..i + 1] == before + [a];
        RanOneMore(env, ctx, start, before, world, r, a);
        var (w, status) := Step(env, ctx, world, a);
        world := w;
        r := AppendOutcome(r, Outcome(kind, verb, changes[i].resource, status));
      }
      assert section[..|changes|] == section;
    }

    /** Execute: the ten loops in order, after one listing of deployments and one of registries. If
        either listing fails, nothing is done and ok is false. */
    method Execute(env: Env, desired: Spec, p: PlanDoc, listed: Option<seq<Store.Deployment>>, registriesListed: bool)
      returns (r: Result, ok: bool)
      modifies this
      ensures ok <==> listed.Some? && registriesListed
      ensures !ok ==> world == old(world) && r == Result([], 0, 0, 0)
      ensures ok ==>
                var ctx := ContextOf(desired, listed.value, old(world).store.registries);
                Ran(env, ctx, old(world), ActionsOf(p), world, r.outcomes) && Tallied(r)
    {
      hide Step, Ran, Tallied, Section, ContextOf;
      r, ok := Result([], 0, 0, 0), false;
      if listed.None? { return; }
      if !registriesListed { return; }
      ok := true;
      var ctx := ContextOf(desired, listed.value, world.store.registries);
      ghost var start := world;
      StartTally(env, ctx, start);
      ghost var acts: seq<Action> := [];
      r := RunSection(env, ctx, RegistryKind, NoopVerb, p.registries.noop, r, start, acts);
      acts := acts + Section(RegistryKind, NoopVerb, p.registries.noop);
      r := RunSection(env, ctx, RegistryKind, CreateVerb, p.registries.create, r, start, acts);
      acts := acts + Section(RegistryKind, CreateVerb, p.registries.create);
      r := RunSection(env, ctx, RegistryKind, UpdateVerb, p.registries.update, r, start, acts);
      acts := acts + Section(RegistryKind, UpdateVerb, p.registries.update);
      r := RunSection(env, ctx, DeploymentKind, NoopVerb, p.deployments.noop, r, start, acts);
      acts := acts + Section(DeploymentKind, NoopVerb, p.deployments.noop);
      r := RunSection(env, ctx, DeploymentKind, CreateVerb, p.deployments.create, r, start, acts);
      acts := acts + Section(DeploymentKind, CreateVerb, p.deployments.create);
      r := RunSection(env, ctx, DeploymentKind, UpdateVerb, p.deployments.update, r, start, acts);
      acts := acts + Section(DeploymentKind, UpdateVerb, p.deployments.update);
      r := RunSection(env, ctx, HostKind, NoopVerb, p.hostNoop, r, start, acts);
      acts := acts + Section(HostKind, NoopVerb, p.hostNoop);
      r := RunSection(env, ctx, HostKind, UpdateVerb, p.hostUpdate, r, start, acts);
      acts := acts + Section(HostKind, UpdateVerb, p.hostUpdate);
      r := RunSection(env, ctx, DeploymentKind, DeleteVerb, p.deployments.delete, r, start, acts);
      acts := acts + Section(DeploymentKind, DeleteVerb, p.deployments.delete);
      r := RunSection(env, ctx, RegistryKind, DeleteVerb, p.registries.delete, r, start, acts);
      acts := acts + Section(RegistryKind, DeleteVerb, p.registries.delete);
      EmptyFirst(Section(RegistryKind, NoopVerb, p.registries.noop));
      assert acts == ActionsOf(p);
    }
  }

  /** One more action: its new state, and its outcome behind the others. */
  lemma RanOneMore(env: Env, ctx: Context, start: World, before: seq<Action>, w: World, r: Result, a: Action)
    requires Ran(env, ctx, start, before, w, r.outcomes) && Tallied(r)
    ensures var (w', status) := Step(env, ctx, w, a);
            var r' := AppendOutcome(r, Outcome(a.kind, a.verb, a.change.resource, status));
            Ran(env, ctx, start, before + [a], w', r'.outcomes) && Tallied(r')
  {
    hide Step, RunActions, OutcomeAt, Tallied;
    OneMore(env, ctx, start, before, a);
    OneMoreTallied(r, Outcome(a.kind, a.verb, a.change.resource, Step(env, ctx, w, a).1));
  }

  lemma OneMore(env: Env, ctx: Context, w: World, before: seq<Action>, a: Action)
    ensures RunActions(env, ctx, w, before + [a]) == Step(env, ctx, RunActions(env, ctx, w, before), a).0
    ensures forall k :: 0 <= k < |before| ==>
              OutcomeAt(env, ctx, w, before + [a], k) == OutcomeAt(env, ctx, w, before, k)
    ensures OutcomeAt(env, ctx, w, before + [a], |before|) ==
            Outcome(a.kind, a.verb, a.change.resource, Step(env, ctx, RunActions(env, ctx, w, before), a).1)
  {
    hide Step;
    var after := before + [a];
    assert after[..|before|] == before;
    forall k | 0 <= k < |before| ensures OutcomeAt(env, ctx, w, after, k) == OutcomeAt(env, ctx, w, before, k) {
      assert after[..k] == before[..k];
    }
  }

  lemma OneMoreTallied(r: Result, o: Outcome)
    requires Tallied(r)
    ensures Tallied(AppendOutcome(r, o))
  {
    assert (r.outcomes + [o])[..|r.outcomes|] == r.outcomes;
  }

  lemma EmptyFirst(s: seq<Action>)
    ensures [] + s == s
  {
  }

  lemma StartTally(env: Env, ctx: Context, w: World)
    ensures Ran(env, ctx, w, [], w, []) && Tallied(Result([], 0, 0, 0))
  {
  }

  // ---------------------------------------------------------------- the order of the actions

  /** Registries are written before deployments, the host after both, and deletions come last. */
  function Stage(a: Action): nat {
    match (a.kind, a.verb)
    case (RegistryKind, NoopVerb) => 0
    case (RegistryKind, CreateVerb) => 1
    case (RegistryKind, UpdateVerb) => 2
    case (DeploymentKind, NoopVerb) => 3
    case (DeploymentKind, CreateVerb) => 4
    case (DeploymentKind, UpdateVerb) => 5
    case (HostKind, NoopVerb) => 6
    case (HostKind, _) => 7
    case (DeploymentKind, DeleteVerb) => 8
    case (RegistryKind, DeleteVerb) => 9
  }

  ghost predicate InStages(x: seq<Action>, k: nat) {
    (forall i, j :: 0 <= i < j < |x| ==> Stage(x[i]) <= Stage(x[j])) && (forall i :: 0 <= i < |x| ==> Stage(x[i]) <= k)
  }

  lemma AddStage(x: seq<Action>, k: nat, kind: Kind, verb: Verb, changes: seq<Change>, k': nat)
    requires InStages(x, k) && k <= k' && forall c :: Stage(Action(kind, verb, c)) == k'
    ensures InStages(x + Section(kind, verb, changes), k')
  {
    hide Stage;
  }

  /** Execute runs its actions stage by stage. */
  lemma ActionsAreStaged(p: PlanDoc, i: int, j: int)
    requires 0 <= i < j < |ActionsOf(p)|
    ensures Stage(ActionsOf(p)[i]) <= Stage(ActionsOf(p)[j])
  {
    hide Section;
    var x: seq<Action> := [];
    assert InStages(x, 0);
    AddStage(x, 0, RegistryKind, NoopVerb, p.registries.noop, 0);
    EmptyFirst(Section(RegistryKind, NoopVerb, p.registries.noop));
    x := Section(RegistryKind, NoopVerb, p.registries.noop);
    AddStage(x, 0, RegistryKind, CreateVerb, p.registries.create, 1);
    x := x + Section(RegistryKind, CreateVerb, p.registries.create);
    AddStage(x, 1, RegistryKind, UpdateVerb, p.registries.update, 2);
    x := x + Section(RegistryKind, UpdateVerb, p.registries.update);
    AddStage(x, 2, DeploymentKind, NoopVerb, p.deployments.noop, 3);
    x := x + Section(DeploymentKind, NoopVerb, p.deployments.noop);
    AddStage(x, 3, DeploymentKind, CreateVerb, p.deployments.create, 4);
    x := x + Section(DeploymentKind, CreateVerb, p.deployments.create);
    AddStage(x, 4, DeploymentKind, UpdateVerb, p.deployments.update, 5);
    x := x + Section(DeploymentKind, UpdateVerb, p.deployments.update);
    AddStage(x, 5, HostKind, NoopVerb, p.hostNoop, 6);
    x := x + Section(HostKind, NoopVerb, p.hostNoop);
    AddStage(x, 6, HostKind, UpdateVerb, p.hostUpdate, 7);
    x := x + Section(HostKind, UpdateVerb, p.hostUpdate);
    AddStage(x, 7, DeploymentKind, DeleteVerb, p.deployments.delete, 8);
    x := x + Section(DeploymentKind, DeleteVerb, p.deployments.delete);
    AddStage(x, 8, RegistryKind, DeleteVerb, p.registries.delete, 9);
    x := x + Section(RegistryKind, DeleteVerb, p.registries.delete);
    hide Stage;
    assert x == ActionsOf(p) && InStages(x, 9);
  }
}
