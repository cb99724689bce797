/** One reconciliation pass (orchestrator/internal/reconciler/reconciler.go). A pass is described by
    a relation between the world before and after it and a record of what Docker and the store
    replied; `Reconciler.Reconcile` is the loop that realises the relation. */
module Reconciler {
  import opened Text
  import opened Engine
  import opened Ordering
  import opened Selection
  import D = Docker
  import Store

  type Deployment = Store.Deployment

  // ---------------------------------------------------------------- retry backoff

  /** Times and delays are in nanoseconds; time 0 stands for time.Time's zero value. */
  const SECOND := 1_000_000_000
  const BASE_DELAY := 15 * SECOND
  const MAX_DELAY := 120 * SECOND

  datatype Retry = Retry(attempts: nat, nextAllowedAt: int)

  function Power2(n: nat): (r: int)
    ensures r >= 1
  {
    if n == 0 then 1 else 2 * Power2(n - 1)
  }

  function Delay(attempts: nat): int {
    if BASE_DELAY * Power2(attempts) < MAX_DELAY then BASE_DELAY * Power2(attempts) else MAX_DELAY
  }

  lemma {:induction false} Power2Grows(m: nat, n: nat)
    requires m <= n
    ensures Power2(m) <= Power2(n)
  {
    if m < n { Power2Grows(m, n - 1); }
  }

  /** The doubling loop of recordRetryFailure. */
  method BackoffDelay(attempts: nat) returns (delay: int)
    ensures delay == Delay(attempts)
  {
    delay := BASE_DELAY;
    for i := 0 to attempts
      invariant delay == BASE_DELAY * Power2(i) && (delay < MAX_DELAY || i == 0)
    {
      delay := delay * 2;
      if delay >= MAX_DELAY {
        Power2Grows(i + 1, attempts);
        return MAX_DELAY;
      }
    }
  }

  predicate CanRetry(entry: Option<Retry>, now: int, force: bool) {
    force || entry.None? || entry.value.nextAllowedAt == 0 || now >= entry.value.nextAllowedAt
  }

  /** recordRetryFailure */
  function AfterFailure(entry: Option<Retry>, now: int): Retry {
    var attempts := if entry.Some? then entry.value.attempts else 0;
    Retry(attempts + 1, now + Delay(attempts))
  }

  // ---------------------------------------------------------------- messages

  const DOCKER_UNAVAILABLE := "docker daemon is unavailable"
  const NOT_RUNNING := "container is not running"

  predicate IsTransientFailure(message: string) {
    message != "" &&
    (Contains(ToLower(message), DOCKER_UNAVAILABLE) || Contains(ToLower(message), "docker daemon unreachable") ||
     Contains(ToLower(message), NOT_RUNNING))
  }

  /** Losing the daemon during a launch, failing the ping and a vanished container all count as
      transient, so the deployment is healed later. */
  lemma OutagesAreTransient(text: string)
    ensures IsTransientFailure(D.Unavailable(text))
    ensures IsTransientFailure(DOCKER_UNAVAILABLE) && IsTransientFailure(ExitMessage(None))
  {
    UnavailableText(text);
    LowerTexts();
    hide ToLower;
  }

  lemma UnavailableText(text: string)
    ensures "docker daemon unreachable" <= ToLower(D.Unavailable(text))
  {
  }

  lemma LowerTexts()
    ensures ToLower(DOCKER_UNAVAILABLE) == DOCKER_UNAVAILABLE && ToLower(NOT_RUNNING) == NOT_RUNNING
  {
  }

  function Int(n: int): string { if n < 0 then "-" + Itoa(-n) else Itoa(n) }

  function ExitMessage(exit: Option<ExitDetails>): string {
    match exit
    case None => NOT_RUNNING
    case Some(d) =>
      var code := "(exit code " + Int(d.exitCode) + ")";
      if d.oomKilled then "container killed: out of memory " + code
      else if d.error != "" then "container exited with error: " + d.error + " " + code
      else if d.exitCode == 0 then "container exited cleanly " + code
      else "container exited unexpectedly " + code
  }

  function ExitReason(exit: Option<ExitDetails>): string {
    if exit.None? then "container_not_running" else "container_exited"
  }

  // ---------------------------------------------------------------- decisions

  datatype World = World(deps: map<string, Deployment>, containers: map<string, Container>,
                         retry: map<string, Retry>, seen: bool, reachable: bool)

  /** What the reconciler does with one deployment once its stale containers are dealt with. */
  datatype Action =
    | Keep
    | Mark(reason: string, error: string)
    | Recover
    | Launch(former: Option<string>, healing: bool)

  function Entry(retry: map<string, Retry>, id: string): Option<Retry> {
    if id in retry then Some(retry[id]) else None
  }

  function IdOf(c: Option<D.Listed>): Option<string> { if c.Some? then Some(c.value.id) else None }

  predicate Runs(c: Option<D.Listed>) { c.Some? && c.value.running }

  function Decide(d: Deployment, primary: Option<D.Listed>, entry: Option<Retry>, now: int, reconnected: bool,
                  dashboard: string): Action
  {
    match d.status
    case Idle => Keep
    case Deploying =>
      if dashboard != "" && NormalizeDomain(d.domain) == dashboard
      then Mark("domain_reserved", "domain \"" + dashboard + "\" is reserved for dashboard")
      else Launch(IdOf(primary), false)
    case Healthy =>
      var exit := if primary.Some? then primary.value.exit else None;
      if Runs(primary) then Keep else Mark(ExitReason(exit), ExitMessage(exit))
    case Failed =>
      if !IsTransientFailure(d.error) then Keep
      else if Runs(primary) then Recover
      else if !CanRetry(entry, now, reconnected) then Keep
      else Launch(IdOf(primary), true)
  }

  // ---------------------------------------------------------------- effects

  function WithStatus(d: Deployment, status: Store.Status, reason: string, error: string): Deployment {
    d.(status := status, reason := reason, error := error)
  }

  /** updateStatus and updatePortsAndStatus; a failing store call changes nothing. */
  function SetStatus(deps: map<string, Deployment>, id: string, ports: Option<seq<string>>, status: Store.Status,
                     reason: string, error: string, ok: bool): map<string, Deployment>
  {
    if !ok || id !in deps then deps
    else
      var d := if ports.Some? then deps[id].(ports := ports.value) else deps[id];
      deps[id := WithStatus(d, status, reason, error)]
  }

  /** What Docker and the store replied while one deployment was handled. */
  datatype Outcome = Outcome(swept: map<string, Container>, removed: set<string>, made: Option<string>,
                             stopFirst: bool, fine: bool, launched: D.Launched, patched: bool)

  /** StopAndRemove was called for the ids and reported success for those in `removed`. */
  ghost predicate Swept(before: map<string, Container>, ids: set<string>, removed: set<string>,
                        after: map<string, Container>)
  {
    && SameExcept(before, after, ids)
    && (forall k :: k in ids ==> OnlyWeaker(before, after, k))
    && (forall k :: k in removed ==> k in ids && k !in after)
  }

  function PrimaryOf(listing: seq<D.Listed>, d: Deployment): Option<D.Listed> {
    Primary(d.name, Candidates(listing, d.id))
  }

  ghost function Stale(listing: seq<D.Listed>, d: Deployment): set<string> {
    set c | c in Candidates(listing, d.id) && Some(c.id) != IdOf(PrimaryOf(listing, d)) :: c.id
  }

  function ClearedAtStart(retry: map<string, Retry>, d: Deployment): map<string, Retry> {
    if d.status.Failed? then retry else retry - {d.id}
  }

  ghost predicate LaunchOutcome(before: map<string, Container>, d: Deployment, former: Option<string>,
                                after: map<string, Container>, o: Outcome)
  {
    match former
    case None => D.StartOutcome(before, d, after, o.made, o.fine, o.launched)
    case Some(oldId) => D.ReplaceOutcome(before, d, oldId, after, o.made, o.stopFirst, o.fine, o.launched)
  }

  function SuccessReason(former: Option<string>, healing: bool): string {
    if healing then "retry_start_succeeded"
    else if former.Some? then "redeploy_start_succeeded" else "deploy_start_succeeded"
  }

  function FailureReason(former: Option<string>, healing: bool): string {
    if healing then "retry_start_failed_transient"
    else if former.Some? then "redeploy_start_failed" else "deploy_start_failed"
  }

  function RetryAfterLaunch(retry: map<string, Retry>, id: string, healing: bool, launched: D.Launched, now: int)
    : map<string, Retry>
  {
    if !healing then retry
    else if launched.Started? then retry - {id}
    else retry[id := AfterFailure(Entry(retry, id), now)]
  }

  function DepsAfterLaunch(deps: map<string, Deployment>, id: string, a: Action, launched: D.Launched, ok: bool)
    : map<string, Deployment>
    requires a.Launch?
  {
    match launched
    case Started(ports) => SetStatus(deps, id, Some(ports), Store.Healthy, SuccessReason(a.former, a.healing), "", ok)
    case Refused(error) => SetStatus(deps, id, None, Store.Failed, FailureReason(a.former, a.healing), error, ok)
  }

  datatype Settings = Settings(dashboard: string, now: int, reconnected: bool, listing: seq<D.Listed>)

  function ActionFor(s: Settings, w: World, d: Deployment): Action {
    Decide(d, PrimaryOf(s.listing, d), Entry(w.retry, d.id), s.now, s.reconnected, s.dashboard)
  }

  /** Carrying out an action. */
  ghost predicate Acted(s: Settings, w: World, d: Deployment, a: Action, o: Outcome, w': World) {
    match a
    case Keep => w' == w
    case Mark(reason, error) =>
      w' == w.(deps := SetStatus(w.deps, d.id, None, Store.Failed, reason, error, o.patched))
    case Recover =>
      w' == w.(retry := w.retry - {d.id},
               deps := SetStatus(w.deps, d.id, None, Store.Healthy, "retry_recovered_running", "", o.patched))
    case Launch(former, healing) =>
      LaunchOutcome(w.containers, d, former, w'.containers, o) &&
      w' == w.(containers := w'.containers, retry := RetryAfterLaunch(w.retry, d.id, healing, o.launched, s.now),
               deps := DepsAfterLaunch(w.deps, d.id, a, o.launched, o.patched))
  }

  /** One deployment's turn in a pass: stale containers are swept, then the action is carried out. */
  ghost predicate Step(s: Settings, w: World, d: Deployment, o: Outcome, w': World) {
    Swept(w.containers, Stale(s.listing, d), o.removed, o.swept) &&
    Acted(s, w.(containers := o.swept, retry := ClearedAtStart(w.retry, d)), d, ActionFor(s, w, d), o, w')
  }

  // ---------------------------------------------------------------- a pass

  /** store.List: every stored deployment once, in any order. */
  ghost predicate Enumerates(order: seq<Deployment>, deps: map<string, Deployment>) {
    && (forall i, j :: 0 <= i < j < |order| ==> order[i].id != order[j].id)
    && (forall i :: 0 <= i < |order| ==> order[i].id in deps && deps[order[i].id] == order[i])
    && (forall id :: id in deps ==> exists i :: 0 <= i < |order| && order[i].id == id)
  }

  ghost predicate WellKeyed(deps: map<string, Deployment>) {
    forall id :: id in deps ==> deps[id].id == id
  }

  /** The ping failed: active deployments are marked, as far as the store accepts it. */
  function MarkedDown(deps: map<string, Deployment>, order: seq<Deployment>, oks: seq<bool>): map<string, Deployment>
    requires |oks| == |order|
  {
    if order == [] then deps
    else
      var n := |order| - 1;
      var before := MarkedDown(deps, order[..n], oks[..n]);
      if order[n].status.Healthy? || order[n].status.Deploying?
      then SetStatus(before, order[n].id, None, Store.Failed, "docker_unavailable", DOCKER_UNAVAILABLE, oks[n])
      else before
  }

  ghost function Orphans(listing: seq<D.Listed>, order: seq<Deployment>): set<string> {
    set c | c in listing && !Known(order, c.deployment) :: c.id
  }

  predicate Known(order: seq<Deployment>, id: string) { exists i :: 0 <= i < |order| && order[i].id == id }

  datatype Pass =
    | StoreFailed
    | PingFailed(order: seq<Deployment>, oks: seq<bool>)
    | ListFailed
    | Full(s: Settings, order: seq<Deployment>, worlds: seq<World>, outcomes: seq<Outcome>, removed: set<string>)

  function Reconnected(w: World): bool { w.seen && !w.reachable }

  ghost predicate Chain(s: Settings, order: seq<Deployment>, worlds: seq<World>, outcomes: seq<Outcome>) {
    |worlds| == |order| + 1 && |outcomes| == |order| &&
    forall i :: 0 <= i < |order| ==> Step(s, worlds[i], order[i], outcomes[i], worlds[i + 1])
  }

  /** Is this a pass that leads from world w to world w'? */
  ghost predicate Passes(dashboard: string, w: World, pass: Pass, w': World) {
    match pass
    case StoreFailed => w' == w
    case PingFailed(order, oks) =>
      Enumerates(order, w.deps) && |oks| == |order| &&
      w' == w.(seen := true, reachable := false, deps := MarkedDown(w.deps, order, oks))
    case ListFailed => w' == w.(seen := true, reachable := true)
    case Full(s, order, worlds, outcomes, removed) =>
      s.dashboard == dashboard && s.reconnected == Reconnected(w) && Enumerates(order, w.deps) &&
      D.Lists(s.listing, w.containers) && Chain(s, order, worlds, outcomes) &&
      worlds[0] == w.(seen := true, reachable := true) &&
      Swept(worlds[|order|].containers, Orphans(s.listing, order), removed, w'.containers) &&
      w' == worlds[|order|].(containers := w'.containers)
  }

  // ---------------------------------------------------------------- the reconciler

  const NO_CHANGE := Store.Patch("", None, None, None, None, None, "", None, None, None, None, "", "")

  lemma PatchIsStatus(d: Deployment, ports: Option<seq<string>>, status: Store.Status, reason: string, error: string)
    ensures Store.MergePatch(d, NO_CHANGE.(ports := ports, status := Some(status), reason := reason, error := error)) ==
            WithStatus(if ports.Some? then d.(ports := ports.value) else d, status, reason, error)
  {
  }

  ghost function StaleAmong(candidates: seq<D.Listed>, keep: Option<string>): set<string> {
    set c | c in candidates && Some(c.id) != keep :: c.id
  }

  lemma SweptMore(before: map<string, Container>, ids: set<string>, removed: set<string>, mid: map<string, Container>,
                  k: string, gone: bool, after: map<string, Container>)
    requires Swept(before, ids, removed, mid)
    requires SameExcept(mid, after, {k}) && OnlyWeaker(mid, after, k) && (gone ==> k !in after)
    ensures Swept(before, ids + {k}, removed + (if gone then {k} else {}), after)
  {
  }

  lemma StaleMore(front: seq<D.Listed>, c: D.Listed, keep: Option<string>)
    ensures StaleAmong(front + [c], keep) == StaleAmong(front, keep) + (if Some(c.id) == keep then {} else {c.id})
  {
  }

  lemma OrphansMore(front: seq<D.Listed>, c: D.Listed, order: seq<Deployment>)
    ensures Orphans(front + [c], order) == Orphans(front, order) + (if Known(order, c.deployment) then {} else {c.id})
  {
  }

  class Reconciler {
    const store: Store.JSONStore
    const docker: D.Docker
    const dashboard: string
    var retry: map<string, Retry>
    var seen: bool
    var reachable: bool

    constructor (store: Store.JSONStore, docker: D.Docker, dashboardDomain: string)
      ensures this.store == store && this.docker == docker && dashboard == NormalizeDomain(dashboardDomain)
      ensures retry == map[] && !seen
    {
      this.store, this.docker, dashboard := store, docker, NormalizeDomain(dashboardDomain);
      retry, seen, reachable := map[], false, false;
    }

    ghost function Snapshot(): World
      reads this, store, docker.client
    {
      World(store.deployments, docker.client.containers, retry, seen, reachable)
    }

    /** recordDockerReachability */
    method RecordReachability(up: bool) returns (reconnected: bool)
      modifies this
      ensures retry == old(retry) && seen && reachable == up
      ensures reconnected == (old(seen) && !old(reachable) && up)
    {
      if !seen {
        seen, reachable := true, up;
        return false;
      }
      reconnected := !reachable && up;
      reachable := up;
    }

    method RecordRetryFailure(id: string, now: int)
      modifies this`retry
      ensures retry == old(retry)[id := AfterFailure(Entry(old(retry), id), now)]
    {
      var attempts := if id in retry then retry[id].attempts else 0;
      var delay := BackoffDelay(attempts);
      retry := retry[id := Retry(attempts + 1, now + delay)];
    }

    method ClearRetryState(id: string)
      modifies this`retry
      ensures retry == old(retry) - {id}
    {
      retry := retry - {id};
    }

    method UpdateStatus(id: string, ports: Option<seq<string>>, status: Store.Status, reason: string, error: string)
      returns (ghost ok: bool)
      modifies store
      ensures store.deployments == SetStatus(old(store.deployments), id, ports, status, reason, error, ok)
    {
      var io: bool := *;
      var patch := NO_CHANGE.(ports := ports, status := Some(status), reason := reason, error := error);
      if id in store.deployments { PatchIsStatus(store.deployments[id], ports, status, reason, error); }
      var _ := store.Patch(id, patch, io);
      ok := io;
    }

    /** Stop and remove every candidate but the primary; failures are only logged. */
    method SweepStale(candidates: seq<D.Listed>, keep: Option<string>) returns (ghost removed: set<string>)
      requires docker.client.Valid()
      modifies docker.client
      ensures docker.client.Valid() && docker.client.issued == old(docker.client.issued)
      ensures Swept(old(docker.client.containers), StaleAmong(candidates, keep), removed, docker.client.containers)
    {
      removed := {};
      for i := 0 to |candidates|
        invariant docker.client.Valid() && docker.client.issued == old(docker.client.issued)
        invariant Swept(old(docker.client.containers), StaleAmong(candidates[..i], keep), removed,
                        docker.client.containers)
      {
        hide Swept, StaleAmong;
        assert candidates[..i + 1] == candidates[..i] + [candidates[i]];
        StaleMore(candidates[..i], candidates[i], keep);
        if Some(candidates[i].id) != keep {
          ghost var mid, ids := docker.client.containers, StaleAmong(candidates[..i], keep);
          var failure := docker.StopAndRemove(candidates[i].id);
          SweptMore(old(docker.client.containers), ids, removed, mid, candidates[i].id, failure.None?,
                    docker.client.containers);
          removed := removed + (if failure.None? then {candidates[i].id} else {});
        }
      }
      assert candidates[..|candidates|] == candidates;
    }

    /** Stop and remove the containers of deployments that are no longer stored. */
    method SweepOrphans(listing: seq<D.Listed>, order: seq<Deployment>) returns (ghost removed: set<string>)
      requires docker.client.Valid()
      modifies docker.client
      ensures docker.client.Valid()
      ensures Swept(old(docker.client.containers), Orphans(listing, order), removed, docker.client.containers)
    {
      var known: set<string> := {};
      for i := 0 to |order|
        invariant forall id :: id in known <==> Known(order[..i], id)
      {
        assert order[..i + 1] == order[..i] + [order[i]];
        forall id ensures Known(order[..i + 1], id) <==> Known(order[..i], id) || order[i].id == id {
          if order[i].id == id { assert order[..i + 1][i].id == id; }
          if Known(order[..i], id) {
            var k :| 0 <= k < i && order[..i][k].id == id;
            assert order[..i + 1][k].id == id;
          }
        }
        known := known + {order[i].id};
      }
      assert order[..|order|] == order;
      removed := {};
      for i := 0 to |listing|
        invariant docker.client.Valid()
        invariant Swept(old(docker.client.containers), Orphans(listing[..i], order), removed, docker.client.containers)
      {
        hide Swept, Orphans, Known;
        assert listing[..i + 1] == listing[..i] + [listing[i]];
        OrphansMore(listing[..i], listing[i], order);
        if listing[i].deployment !in known {
          ghost var mid, ids := docker.client.containers, Orphans(listing[..i], order);
          var failure := docker.StopAndRemove(listing[i].id);
          SweptMore(old(docker.client.containers), ids, removed, mid, listing[i].id, failure.None?,
                    docker.client.containers);
          removed := removed + (if failure.None? then {listing[i].id} else {});
        }
      }
      assert listing[..|listing|] == listing;
    }

    /** Start or replace the deployment's container and record how it went. */
    method LaunchContainer(s: Settings, d: Deployment, former: Option<string>, healing: bool, ghost mid: Outcome)
      returns (ghost o: Outcome)
      requires docker.client.Valid() && mid.swept == docker.client.containers
      requires former.Some? ==> former.value in docker.client.issued
      modifies this`retry, store, docker.client
      ensures docker.client.Valid() && docker.client.issued >= old(docker.client.issued)
      ensures o.swept == mid.swept && o.removed == mid.removed
      ensures LaunchOutcome(o.swept, d, former, docker.client.containers, o)
      ensures retry == RetryAfterLaunch(old(retry), d.id, healing, o.launched, s.now)
      ensures store.deployments ==
                DepsAfterLaunch(old(store.deployments), d.id, Launch(former, healing), o.launched, o.patched)
    {
      hide D.StartOutcome, D.ReplaceOutcome, D.AllFine, D.Reachable, D.PortContested, D.Untouched,
           D.TouchedAfterHandover, D.Replaced, D.StartedCalls;
      var launched;
      ghost var from, made, stopFirst, fine := |docker.client.log|, None, false, false;
      if former.Some? {
        launched, made, stopFirst, fine := docker.StartAndReplace(d, former.value);
      } else {
        launched, made := docker.Start(d);
        fine := D.AllFine(docker.client.log, from, docker.Asked(d.ports));
      }
      ghost var ok;
      if launched.Refused? {
        if healing { RecordRetryFailure(d.id, s.now); }
        ok := UpdateStatus(d.id, None, Store.Failed, FailureReason(former, healing), launched.error);
      } else {
        if healing { ClearRetryState(d.id); }
        ok := UpdateStatus(d.id, Some(launched.ports), Store.Healthy, SuccessReason(former, healing), "");
      }
      o := Outcome(mid.swept, mid.removed, made, stopFirst, fine, launched, ok);
    }

    /** One deployment's turn. */
    method Handle(s: Settings, d: Deployment, candidates: seq<D.Listed>) returns (ghost o: Outcome)
      requires docker.client.Valid() && candidates == Candidates(s.listing, d.id) && s.dashboard == dashboard
      requires forall c :: c in s.listing ==> c.id in docker.client.issued
      modifies this`retry, store, docker.client
      ensures docker.client.Valid() && docker.client.issued >= old(docker.client.issued)
      ensures Step(s, old(Snapshot()), d, o, Snapshot())
    {
      hide Acted, Swept, Decide, Sorted, Candidates, Stale, StaleAmong;
      ghost var before := Snapshot();
      if d.status.Healthy? || d.status.Deploying? || d.status.Idle? { ClearRetryState(d.id); }

      var sorted := Sorted(d.name, candidates);
      var primary := if sorted == [] then None else Some(sorted[0]);
      StaleSorted(s.listing, d);
      ghost var removed := SweepStale(sorted, IdOf(primary));
      ghost var swept := docker.client.containers;
      PrimaryIsListed(s.listing, d);
      if d.status.Failed? {
        o := Heal(s, d, primary, removed);
      } else {
        DecideIgnoresEntry(s, d, primary, Entry(before.retry, d.id));
        o := Converge(s, d, primary, removed);
      }
      assert Snapshot().seen == before.seen;
    }

    /** The turn of a deployment that is not Failed, after the sweep. */
    method Converge(s: Settings, d: Deployment, primary: Option<D.Listed>, ghost removed: set<string>)
      returns (ghost o: Outcome)
      requires docker.client.Valid() && !d.status.Failed? && s.dashboard == dashboard
      requires primary.Some? ==> primary.value.id in docker.client.issued
      modifies this`retry, store, docker.client
      ensures docker.client.Valid() && docker.client.issued >= old(docker.client.issued)
      ensures o.swept == old(docker.client.containers) && o.removed == removed
      ensures Acted(s, old(Snapshot()), d, Decide(d, primary, None, s.now, s.reconnected, dashboard), o, Snapshot())
    {
      hide LaunchOutcome, SetStatus, RetryAfterLaunch, DepsAfterLaunch, NormalizeDomain, ExitMessage,
           IsTransientFailure;
      o := Outcome(docker.client.containers, removed, None, false, true, D.Refused(""), true);
      if dashboard != "" && NormalizeDomain(d.domain) == dashboard && d.status.Deploying? {
        ghost var ok := UpdateStatus(d.id, None, Store.Failed, "domain_reserved",
                                     "domain \"" + dashboard + "\" is reserved for dashboard");
        o := o.(patched := ok);
      } else if d.status.Deploying? {
        o := LaunchContainer(s, d, IdOf(primary), false, o);
      } else if d.status.Healthy? && (primary.None? || !primary.value.running) {
        var exit := if primary.Some? then primary.value.exit else None;
        ghost var ok := UpdateStatus(d.id, None, Store.Failed, ExitReason(exit), ExitMessage(exit));
        o := o.(patched := ok);
      }
    }

    /** The turn of a Failed deployment, after the sweep. */
    method Heal(s: Settings, d: Deployment, primary: Option<D.Listed>, ghost removed: set<string>)
      returns (ghost o: Outcome)
      requires docker.client.Valid() && d.status.Failed?
      requires primary.Some? ==> primary.value.id in docker.client.issued
      modifies this`retry, store, docker.client
      ensures docker.client.Valid() && docker.client.issued >= old(docker.client.issued)
      ensures o.swept == old(docker.client.containers) && o.removed == removed
      ensures Acted(s, old(Snapshot()), d,
                    Decide(d, primary, Entry(old(retry), d.id), s.now, s.reconnected, s.dashboard), o, Snapshot())
    {
      hide LaunchOutcome, SetStatus, RetryAfterLaunch, DepsAfterLaunch, NormalizeDomain, ExitMessage,
           IsTransientFailure;
      o := Outcome(docker.client.containers, removed, None, false, true, D.Refused(""), true);
      if !IsTransientFailure(d.error) { return; }
      if primary.Some? && primary.value.running {
        ClearRetryState(d.id);
        ghost var ok := UpdateStatus(d.id, None, Store.Healthy, "retry_recovered_running", "");
        o := o.(patched := ok);
        return;
      }
      if !CanRetry(Entry(retry, d.id), s.now, s.reconnected) { return; }
      o := LaunchContainer(s, d, IdOf(primary), true, o);
    }

    /** The ping failed: mark the active deployments without any Docker call. */
    method MarkUnavailable(order: seq<Deployment>) returns (ghost oks: seq<bool>)
      modifies store
      ensures |oks| == |order| && store.deployments == MarkedDown(old(store.deployments), order, oks)
    {
      oks := [];
      for i := 0 to |order|
        invariant |oks| == i && store.deployments == MarkedDown(old(store.deployments), order[..i], oks)
      {
        hide SetStatus;
        ghost var ok := true;
        if order[i].status.Healthy? || order[i].status.Deploying? {
          ok := UpdateStatus(order[i].id, None, Store.Failed, "docker_unavailable", DOCKER_UNAVAILABLE);
        }
        assert order[..i + 1][..i] == order[..i] && (oks + [ok])[..i] == oks;
        oks := oks + [ok];
      }
      assert order[..|order|] == order;
    }

    /** One pass at time `now`; the ghost result records what happened in it. */
    method Reconcile(now: int) returns (ok: bool, ghost pass: Pass)
      requires docker.client.Valid() && WellKeyed(store.deployments)
      modifies this, store, docker.client
      ensures docker.client.Valid()
      ensures Passes(dashboard, old(Snapshot()), pass, Snapshot())
      ensures ok <==> pass.Full?
      ensures pass.Full? ==> pass.s.now == now
    {
      var readable: bool := *;
      if !readable { return false, StoreFailed; }
      var order := ListDeployments(store.deployments);
      var failure := docker.client.Send(Ping);
      if failure.Some? {
        var _ := RecordReachability(false);
        ghost var oks := MarkUnavailable(order);
        return false, PingFailed(order, oks);
      }
      var reconnected := RecordReachability(true);
      var listed := docker.ListManagedContainers();
      if listed.Err? { return false, ListFailed; }
      var s := Settings(dashboard, now, reconnected, listed.value);
      ghost var worlds, outcomes, removed := RunPass(s, order);
      return true, Full(s, order, worlds, outcomes, removed);
    }

    /** The part of a pass after a successful listing. */
    method RunPass(s: Settings, order: seq<Deployment>)
      returns (ghost worlds: seq<World>, ghost outcomes: seq<Outcome>, ghost removed: set<string>)
      requires docker.client.Valid() && s.dashboard == dashboard && D.Lists(s.listing, docker.client.containers)
      modifies this`retry, store, docker.client
      ensures docker.client.Valid()
      ensures Chain(s, order, worlds, outcomes) && worlds[0] == old(Snapshot())
      ensures Swept(worlds[|order|].containers, Orphans(s.listing, order), removed, docker.client.containers)
      ensures Snapshot() == worlds[|order|].(containers := docker.client.containers)
    {
      hide Swept, Step, Orphans;
      var groups := GroupByDeployment(s.listing);
      worlds, outcomes := [Snapshot()], [];
      for i := 0 to |order|
        invariant docker.client.Valid() && (forall c :: c in s.listing ==> c.id in docker.client.issued)
        invariant |worlds| == i + 1 && |outcomes| == i && worlds[0] == old(Snapshot()) && worlds[i] == Snapshot()
        invariant forall k :: 0 <= k < i ==> Step(s, worlds[k], order[k], outcomes[k], worlds[k + 1])
      {
        var d := order[i];
        var candidates := if d.id in groups then groups[d.id] else [];
        ghost var o := Handle(s, d, candidates);
        worlds, outcomes := worlds + [Snapshot()], outcomes + [o];
      }
      removed := SweepOrphans(s.listing, order);
    }
  }

  lemma DecideIgnoresEntry(s: Settings, d: Deployment, primary: Option<D.Listed>, entry: Option<Retry>)
    requires !d.status.Failed?
    ensures Decide(d, primary, entry, s.now, s.reconnected, s.dashboard) ==
            Decide(d, primary, None, s.now, s.reconnected, s.dashboard)
  {
    hide NormalizeDomain, ExitMessage, IsTransientFailure;
  }

  lemma PrimaryIsListed(listing: seq<D.Listed>, d: Deployment)
    ensures PrimaryOf(listing, d).Some? ==> PrimaryOf(listing, d).value in listing &&
                                            PrimaryOf(listing, d).value.deployment == d.id
  {
    hide Rank, TrimSpace, Trimmed, Candidates;
    var candidates := Candidates(listing, d.id);
    var sorted := Sorted(d.name, candidates);
    SortProperties(Rank(TrimSpace(d.name)), candidates);
    CandidatesAre(listing, d.id);
    if sorted != [] { assert sorted[0] in multiset(candidates); }
  }

  lemma StaleSorted(listing: seq<D.Listed>, d: Deployment)
    ensures StaleAmong(Sorted(d.name, Candidates(listing, d.id)), IdOf(PrimaryOf(listing, d))) == Stale(listing, d)
  {
    hide Rank, TrimSpace, Trimmed, Candidates, Primary;
    var candidates := Candidates(listing, d.id);
    var sorted := Sorted(d.name, candidates);
    SortProperties(Rank(TrimSpace(d.name)), candidates);
    forall c ensures c in sorted <==> c in candidates { assert c in multiset(sorted) <==> c in multiset(candidates); }
  }

  method ListDeployments(deps: map<string, Deployment>) returns (order: seq<Deployment>)
    requires WellKeyed(deps)
    ensures Enumerates(order, deps)
  {
    var rest := deps.Keys;
    order := [];
    while rest != {}
      invariant rest <= deps.Keys
      invariant forall i, j :: 0 <= i < j < |order| ==> order[i].id != order[j].id
      invariant forall i :: 0 <= i < |order| ==>
                  order[i].id in deps && order[i].id !in rest && deps[order[i].id] == order[i]
      invariant forall id :: id in deps && id !in rest ==> Known(order, id)
    {
      var id :| id in rest;
      ghost var was := order;
      rest, order := rest - {id}, order + [deps[id]];
      forall k | k in deps && k !in rest ensures Known(order, k) {
        if k == id { assert order[|was|].id == id; } else {
          var i :| 0 <= i < |was| && was[i].id == k;
          assert order[i].id == k;
        }
      }
    }
  }

  lemma CandidatesStep(listing: seq<D.Listed>, i: nat)
    requires i < |listing|
    ensures forall id :: Candidates(listing[..i + 1], id) ==
              Candidates(listing[..i], id) + (if listing[i].deployment == id then [listing[i]] else [])
  {
    assert listing[..i + 1][..i] == listing[..i];
  }

  /** containersByDeployment */
  method GroupByDeployment(listing: seq<D.Listed>) returns (groups: map<string, seq<D.Listed>>)
    ensures forall id :: (if id in groups then groups[id] else []) == Candidates(listing, id)
  {
    groups := map[];
    for i := 0 to |listing|
      invariant forall id :: (if id in groups then groups[id] else []) == Candidates(listing[..i], id)
    {
      hide Candidates;
      var c := listing[i];
      CandidatesStep(listing, i);
      groups := groups[c.deployment := (if c.deployment in groups then groups[c.deployment] else []) + [c]];
    }
    assert listing[..|listing|] == listing;
  }
}
