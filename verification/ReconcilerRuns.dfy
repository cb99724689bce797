/** What every pass of the reconciler keeps, whatever fails: each deployment is handled in a turn of
    its own, and no pass makes an unjustified status change or takes away a last running container. */
module ReconcilerRuns {
  import opened Text
  import opened Engine
  import opened Selection
  import opened Reconciler
  import D = Docker
  import Store

  // ---------------------------------------------------------------- one deployment's share of the world

  predicate Owns(containers: map<string, Container>, id: string, k: string) {
    k in containers && containers[k].deployment == id
  }

  ghost predicate SameOwn(a: map<string, Container>, b: map<string, Container>, id: string) {
    forall k :: Owns(a, id, k) || Owns(b, id, k) ==> Owns(a, id, k) && Owns(b, id, k) && a[k] == b[k]
  }

  /** The two worlds agree on everything that concerns the deployment. */
  ghost predicate SameView(w: World, w': World, id: string) {
    && (id in w.deps <==> id in w'.deps) && (id in w.deps ==> w.deps[id] == w'.deps[id])
    && Entry(w.retry, id) == Entry(w'.retry, id)
    && SameOwn(w.containers, w'.containers, id)
  }

  /** The listing reports exactly the deployment's containers. */
  ghost predicate OwnListed(listing: seq<D.Listed>, containers: map<string, Container>, id: string) {
    && DistinctIds(listing)
    && (forall c :: c in listing && c.deployment == id ==> D.Reports(c, containers))
    && (forall k :: Owns(containers, id, k) ==> exists c :: c in listing && c.id == k && c.deployment == id)
  }

  lemma ListsOwn(listing: seq<D.Listed>, containers: map<string, Container>, id: string)
    requires D.Lists(listing, containers)
    ensures OwnListed(listing, containers, id)
  {
    forall k | Owns(containers, id, k) ensures exists c :: c in listing && c.id == k && c.deployment == id {
      var i :| 0 <= i < |listing| && listing[i].id == k;
      assert listing[i] in listing && D.Reports(listing[i], containers);
    }
  }

  lemma OwnListedLater(listing: seq<D.Listed>, a: map<string, Container>, b: map<string, Container>, id: string)
    requires OwnListed(listing, a, id) && SameOwn(a, b, id)
    ensures OwnListed(listing, b, id)
  {
    forall c | c in listing && c.deployment == id ensures D.Reports(c, b) { assert Owns(a, id, c.id); }
  }

  // ---------------------------------------------------------------- frames

  lemma StaleIsOwn(listing: seq<D.Listed>, containers: map<string, Container>, d: Deployment)
    requires OwnListed(listing, containers, d.id)
    ensures forall k :: k in Stale(listing, d) ==> Owns(containers, d.id, k)
    ensures PrimaryOf(listing, d).Some? ==> Owns(containers, d.id, PrimaryOf(listing, d).value.id)
  {
    hide PrimaryOf, Candidates;
    CandidatesAre(listing, d.id);
    PrimaryIsListed(listing, d);
  }

  lemma SweptFrame(before: map<string, Container>, ids: set<string>, removed: set<string>,
                   after: map<string, Container>, e: string)
    requires Swept(before, ids, removed, after) && forall k :: k in ids ==> !Owns(before, e, k)
    ensures SameOwn(before, after, e)
  {
    forall k | Owns(before, e, k) || Owns(after, e, k)
      ensures Owns(before, e, k) && Owns(after, e, k) && before[k] == after[k]
    {
    }
  }

  lemma LaunchFrame(before: map<string, Container>, d: Deployment, former: Option<string>,
                    after: map<string, Container>, o: Outcome, e: string)
    requires LaunchOutcome(before, d, former, after, o) && e != d.id
    requires former.Some? ==> !Owns(before, e, former.value)
    ensures SameOwn(before, after, e)
  {
  }

  ghost predicate DepsKept(deps: map<string, Deployment>, deps': map<string, Deployment>, e: string) {
    (e in deps <==> e in deps') && (e in deps ==> deps[e] == deps'[e])
  }

  /** Only the deployment's own record and retry entry change, and no record appears or vanishes. */
  lemma ActedRecords(s: Settings, w: World, d: Deployment, a: Action, o: Outcome, w': World)
    requires Acted(s, w, d, a, o, w')
    ensures w'.deps.Keys == w.deps.Keys && w'.seen == w.seen && w'.reachable == w.reachable
    ensures forall e :: e != d.id ==> DepsKept(w.deps, w'.deps, e) && Entry(w.retry, e) == Entry(w'.retry, e)
  {
    hide LaunchOutcome, WithStatus, AfterFailure;
  }

  lemma StepContainers(s: Settings, w: World, d: Deployment, o: Outcome, w': World, e: string)
    requires Step(s, w, d, o, w') && e != d.id && OwnListed(s.listing, w.containers, d.id)
    ensures SameOwn(w.containers, w'.containers, e)
  {
    hide LaunchOutcome, Swept, Stale, PrimaryOf, SetStatus, RetryAfterLaunch, DepsAfterLaunch, OwnListed, Decide;
    StaleIsOwn(s.listing, w.containers, d);
    SweptFrame(w.containers, Stale(s.listing, d), o.removed, o.swept, e);
    var a := ActionFor(s, w, d);
    if a.Launch? {
      ActionShape(s, w, d);
      if a.former.Some? {
        SweptOwner(w.containers, Stale(s.listing, d), o.removed, o.swept, d.id, a.former.value);
      }
      LaunchFrame(o.swept, d, a.former, w'.containers, o, e);
    }
  }

  /** A turn concerns one deployment only. */
  lemma StepFrame(s: Settings, w: World, d: Deployment, o: Outcome, w': World, e: string)
    requires Step(s, w, d, o, w') && e != d.id && OwnListed(s.listing, w.containers, d.id)
    ensures SameView(w, w', e)
  {
    hide Acted, Swept, ActionFor, OwnListed, SameOwn;
    StepContainers(s, w, d, o, w', e);
    var mid := w.(containers := o.swept, retry := ClearedAtStart(w.retry, d));
    ActedRecords(s, mid, d, ActionFor(s, w, d), o, w');
    assert DepsKept(mid.deps, w'.deps, e) && Entry(mid.retry, e) == Entry(w'.retry, e);
  }

  lemma SweptOwner(before: map<string, Container>, ids: set<string>, removed: set<string>,
                   after: map<string, Container>, id: string, k: string)
    requires Swept(before, ids, removed, after) && Owns(before, id, k)
    ensures k in after ==> after[k].deployment == id
  {
    if k in ids { assert OnlyWeaker(before, after, k); }
  }

  lemma SameViewTransitive(a: World, b: World, c: World, id: string)
    requires SameView(a, b, id) && SameView(b, c, id)
    ensures SameView(a, c, id)
  {
  }

  lemma OwnListedView(listing: seq<D.Listed>, a: World, b: World, id: string)
    requires D.Lists(listing, a.containers) && SameView(a, b, id)
    ensures OwnListed(listing, b.containers, id)
  {
    hide OwnListed, SameOwn;
    ListsOwn(listing, a.containers, id);
    OwnListedLater(listing, a.containers, b.containers, id);
  }

  /** Until a deployment's turn, nothing that concerns it changes. */
  lemma {:induction false} ViewUntilTurn(s: Settings, order: seq<Deployment>, worlds: seq<World>,
                                         outcomes: seq<Outcome>, n: nat, id: string)
    requires Chain(s, order, worlds, outcomes) && n <= |order| && D.Lists(s.listing, worlds[0].containers)
    requires forall i, j :: 0 <= i < j < |order| ==> order[i].id != order[j].id
    requires forall k :: 0 <= k < n ==> order[k].id != id
    ensures SameView(worlds[0], worlds[n], id)
  {
    hide Step, SameOwn;
    if n == 0 {
      SameViewReflexive(worlds[0], id);
    } else {
      var d := order[n - 1];
      ViewUntilTurn(s, order, worlds, outcomes, n - 1, id);
      ViewUntilTurn(s, order, worlds, outcomes, n - 1, d.id);
      OwnListedView(s.listing, worlds[0], worlds[n - 1], d.id);
      StepFrame(s, worlds[n - 1], d, outcomes[n - 1], worlds[n], id);
      SameViewTransitive(worlds[0], worlds[n - 1], worlds[n], id);
    }
  }

  lemma SameViewReflexive(w: World, id: string)
    ensures SameView(w, w, id)
  {
  }

  /** After a deployment's turn, nothing that concerns it changes. */
  lemma {:induction false} ViewSinceTurn(s: Settings, order: seq<Deployment>, worlds: seq<World>,
                                         outcomes: seq<Outcome>, i: nat, n: nat, id: string)
    requires Chain(s, order, worlds, outcomes) && i <= n <= |order| && D.Lists(s.listing, worlds[0].containers)
    requires forall i, j :: 0 <= i < j < |order| ==> order[i].id != order[j].id
    requires forall k :: i <= k < n ==> order[k].id != id
    ensures SameView(worlds[i], worlds[n], id)
    decreases n
  {
    hide Step, SameOwn;
    if n == i {
      SameViewReflexive(worlds[i], id);
    } else {
      var d := order[n - 1];
      ViewSinceTurn(s, order, worlds, outcomes, i, n - 1, id);
      ViewUntilTurn(s, order, worlds, outcomes, n - 1, d.id);
      OwnListedView(s.listing, worlds[0], worlds[n - 1], d.id);
      StepFrame(s, worlds[n - 1], d, outcomes[n - 1], worlds[n], id);
      SameViewTransitive(worlds[i], worlds[n - 1], worlds[n], id);
    }
  }

  /** The orphan sweep concerns no stored deployment. */
  lemma OrphanFrame(dashboard: string, w: World, pass: Pass, w': World, id: string)
    requires Passes(dashboard, w, pass, w') && pass.Full? && id in w.deps
    ensures SameView(pass.worlds[|pass.order|], w', id)
  {
    hide Step, SameOwn, Swept;
    var last, orphans := pass.worlds[|pass.order|], Orphans(pass.s.listing, pass.order);
    forall k | k in orphans ensures !Owns(last.containers, id, k) {
      var c :| c in pass.s.listing && !Known(pass.order, c.deployment) && c.id == k;
      ViewUntilTurn(pass.s, pass.order, pass.worlds, pass.outcomes, |pass.order|, c.deployment);
      OrphanStays(pass.s.listing, w.containers, last.containers, c);
    }
    SweptFrame(last.containers, orphans, pass.removed, w'.containers, id);
  }

  lemma OrphanStays(listing: seq<D.Listed>, a: map<string, Container>, b: map<string, Container>, c: D.Listed)
    requires D.Lists(listing, a) && c in listing && SameOwn(a, b, c.deployment)
    ensures Owns(b, c.deployment, c.id)
  {
    assert Owns(a, c.deployment, c.id);
  }

  /** A full pass, seen from one stored deployment, is its own turn. */
  lemma TurnOf(dashboard: string, w: World, pass: Pass, w': World, id: string) returns (i: nat)
    requires Passes(dashboard, w, pass, w') && pass.Full? && id in w.deps
    ensures i < |pass.order| && pass.order[i] == w.deps[id] && pass.order[i].id == id
    ensures |pass.worlds| == |pass.order| + 1 && |pass.outcomes| == |pass.order|
    ensures Step(pass.s, pass.worlds[i], pass.order[i], pass.outcomes[i], pass.worlds[i + 1])
    ensures SameView(w, pass.worlds[i], id) && SameView(pass.worlds[i + 1], w', id)
    ensures OwnListed(pass.s.listing, pass.worlds[i].containers, id)
  {
    hide Step, SameOwn, Swept, OwnListed;
    i :| 0 <= i < |pass.order| && pass.order[i].id == id;
    ViewUntilTurn(pass.s, pass.order, pass.worlds, pass.outcomes, i, id);
    OwnListedView(pass.s.listing, pass.worlds[0], pass.worlds[i], id);
    ViewSinceTurn(pass.s, pass.order, pass.worlds, pass.outcomes, i + 1, |pass.order|, id);
    OrphanFrame(dashboard, w, pass, w', id);
    SameViewTransitive(pass.worlds[i + 1], pass.worlds[|pass.order|], w', id);
  }

  // ---------------------------------------------------------------- safety of every pass

  ghost predicate ListedRunning(listing: seq<D.Listed>, id: string) {
    exists c :: c in listing && c.deployment == id && c.running
  }

  /** In its turn, a container of the deployment was started. */
  ghost predicate StartedFor(pass: Pass, id: string)
    requires pass.Full? && |pass.worlds| == |pass.order| + 1 && |pass.outcomes| == |pass.order|
  {
    exists i :: 0 <= i < |pass.order| && pass.order[i].id == id && StartedAt(pass.outcomes[i], pass.worlds[i + 1], id)
  }

  ghost predicate StartedAt(o: Outcome, w': World, id: string) {
    o.launched.Started? && o.made.Some? && o.made.value !in o.swept && Owns(w'.containers, id, o.made.value)
  }

  lemma RunsIsListed(listing: seq<D.Listed>, d: Deployment)
    requires DistinctIds(listing)
    ensures Runs(PrimaryOf(listing, d)) <==> ListedRunning(listing, d.id)
  {
    hide Primary, Candidates;
    CandidatesAre(listing, d.id);
    CandidatesDistinct(listing, d.id);
    PrimaryRuns(d.name, Candidates(listing, d.id));
  }

  lemma LaunchStarts(before: map<string, Container>, d: Deployment, former: Option<string>,
                     after: map<string, Container>, o: Outcome)
    requires LaunchOutcome(before, d, former, after, o) && o.launched.Started?
    ensures o.made.Some? && o.made.value !in before && Owns(after, d.id, o.made.value)
  {
  }

  /** The status that an action leaves, if the store takes the write. */
  function StatusAfter(status: Store.Status, a: Action, launched: D.Launched): Store.Status {
    match a
    case Keep => status
    case Mark(_, _) => Store.Failed
    case Recover => Store.Healthy
    case Launch(_, _) => if launched.Started? then Store.Healthy else Store.Failed
  }

  lemma ActedStatus(s: Settings, w: World, d: Deployment, a: Action, o: Outcome, w': World)
    requires Acted(s, w, d, a, o, w') && d.id in w.deps && w.deps[d.id] == d
    ensures d.id in w'.deps
    ensures w'.deps[d.id].status == (if o.patched then StatusAfter(d.status, a, o.launched) else d.status)
  {
    hide LaunchOutcome, RetryAfterLaunch;
  }

  lemma ActionShape(s: Settings, w: World, d: Deployment)
    ensures var a := ActionFor(s, w, d); var runs := Runs(PrimaryOf(s.listing, d));
            (a.Recover? ==> d.status.Failed? && runs) &&
            (a.Keep? ==> !d.status.Deploying?) &&
            (a.Mark? ==> !d.status.Failed? && !d.status.Idle?) &&
            (a.Launch? ==> !d.status.Healthy? && !d.status.Idle?) &&
            (a.Launch? && runs ==> d.status.Deploying? && !a.healing) &&
            (d.status.Healthy? ==> (a.Keep? <==> runs) && (a.Mark? <==> !runs)) &&
            (a.Launch? ==> a.former == IdOf(PrimaryOf(s.listing, d)))
  {
    hide PrimaryOf, NormalizeDomain, ExitMessage, IsTransientFailure, CanRetry;
  }

  lemma StepStatus(s: Settings, w: World, d: Deployment, o: Outcome, w': World)
    requires Step(s, w, d, o, w') && d.id in w.deps && w.deps[d.id] == d && OwnListed(s.listing, w.containers, d.id)
    ensures d.id in w'.deps
    ensures !d.status.Healthy? && w'.deps[d.id].status.Healthy? ==>
              ListedRunning(s.listing, d.id) || StartedAt(o, w', d.id)
    ensures d.status.Healthy? ==>
              w'.deps[d.id].status ==
                (if ListedRunning(s.listing, d.id) || !o.patched then Store.Healthy else Store.Failed)
  {
    RunsIsListed(s.listing, d);
    hide OwnListed, Swept, ListedRunning, ActionFor, PrimaryOf, LaunchOutcome, SetStatus, RetryAfterLaunch,
         DepsAfterLaunch;
    var mid, a := w.(containers := o.swept, retry := ClearedAtStart(w.retry, d)), ActionFor(s, w, d);
    ActedStatus(s, mid, d, a, o, w');
    ActionShape(s, w, d);
    if a.Launch? && o.launched.Started? { LaunchStarts(o.swept, d, a.former, w'.containers, o); }
  }

  predicate Active(d: Deployment) { d.status.Healthy? || d.status.Deploying? }

  /** MarkedDown fails exactly the active deployments whose write was taken. */
  lemma {:induction false} MarkedDownAt(deps: map<string, Deployment>, order: seq<Deployment>, oks: seq<bool>,
                                        id: string)
    requires |oks| == |order| && id in deps
    requires forall i, j :: 0 <= i < j < |order| ==> order[i].id != order[j].id
    ensures MarkedDown(deps, order, oks).Keys == deps.Keys
    ensures MarkedDown(deps, order, oks)[id] ==
            (if exists i :: 0 <= i < |order| && order[i].id == id && Active(order[i]) && oks[i]
             then deps[id].(status := Store.Failed, reason := "docker_unavailable", error := DOCKER_UNAVAILABLE)
             else deps[id])
  {
    if order != [] {
      var n := |order| - 1;
      MarkedDownAt(deps, order[..n], oks[..n], id);
      if i :| 0 <= i < |order| && order[i].id == id && Active(order[i]) && oks[i] {
        if i < n { assert order[..n][i] == order[i] && oks[..n][i] == oks[i]; }
      }
    }
  }

  /** The store took the write that the pass made for the deployment, if it made one. */
  ghost predicate WriteTaken(pass: Pass, id: string) {
    match pass
    case PingFailed(order, oks) =>
      |oks| == |order| && exists i :: 0 <= i < |order| && order[i].id == id && oks[i]
    case Full(_, order, _, outcomes, _) =>
      |outcomes| == |order| && exists i :: 0 <= i < |order| && order[i].id == id && outcomes[i].patched
    case _ => false
  }

  /** Healthy is written only when a container of the deployment was listed running or was started
      in this pass, whatever fails. */
  lemma HealthyIsEarned(dashboard: string, w: World, pass: Pass, w': World, id: string)
    requires Passes(dashboard, w, pass, w') && id in w.deps && id in w'.deps
    requires !w.deps[id].status.Healthy? && w'.deps[id].status.Healthy?
    ensures pass.Full? && (ListedRunning(pass.s.listing, id) || StartedFor(pass, id))
  {
    hide Step, Swept, ListedRunning, StartedAt;
    match pass
    case StoreFailed =>
    case ListFailed =>
    case PingFailed(order, oks) => MarkedDownAt(w.deps, order, oks, id);
    case Full(s, order, worlds, outcomes, removed) =>
      var i := TurnOf(dashboard, w, pass, w', id);
      StepStatus(s, worlds[i], order[i], outcomes[i], worlds[i + 1]);
  }

  /** A Healthy deployment becomes Failed exactly when the ping failed or none of its listed
      containers runs, and the store takes the write; otherwise it stays Healthy. */
  lemma HealthyIsLost(dashboard: string, w: World, pass: Pass, w': World, id: string)
    requires Passes(dashboard, w, pass, w') && id in w.deps && w.deps[id].status.Healthy?
    ensures id in w'.deps
    ensures w'.deps[id].status == (if DownSeen(pass, id) && WriteTaken(pass, id) then Store.Failed else Store.Healthy)
  {
    hide Step, Swept, ListedRunning, StartedAt;
    match pass
    case StoreFailed =>
    case ListFailed =>
    case PingFailed(order, oks) => MarkedDownAt(w.deps, order, oks, id);
    case Full(s, order, worlds, outcomes, removed) =>
      var i := TurnOf(dashboard, w, pass, w', id);
      StepStatus(s, worlds[i], order[i], outcomes[i], worlds[i + 1]);
      assert WriteTaken(pass, id) <==> outcomes[i].patched;
  }

  ghost predicate DownSeen(pass: Pass, id: string) {
    pass.PingFailed? || (pass.Full? && !ListedRunning(pass.s.listing, id))
  }

  predicate RunningAt(containers: map<string, Container>, id: string, k: string) {
    Owns(containers, id, k) && containers[k].running
  }

  /** The sweep of stale containers leaves the primary as it is. */
  lemma SweepSparesPrimary(listing: seq<D.Listed>, before: map<string, Container>, d: Deployment, removed: set<string>,
                           after: map<string, Container>)
    requires OwnListed(listing, before, d.id) && Swept(before, Stale(listing, d), removed, after)
    requires ListedRunning(listing, d.id)
    ensures PrimaryOf(listing, d).Some? && RunningAt(before, d.id, PrimaryOf(listing, d).value.id)
    ensures SameAt(before, after, PrimaryOf(listing, d).value.id)
  {
    RunsIsListed(listing, d);
    PrimaryIsListed(listing, d);
    hide PrimaryOf, Candidates;
  }

  lemma LaunchKeepsARunner(before: map<string, Container>, d: Deployment, former: string,
                           after: map<string, Container>, o: Outcome)
    requires LaunchOutcome(before, d, Some(former), after, o) && RunningAt(before, d.id, former) && !o.stopFirst
    ensures exists k :: RunningAt(after, d.id, k)
  {
    var k := if o.launched.Started? then o.made.value else former;
    assert RunningAt(after, d.id, k);
  }

  lemma StepKeepsARunner(s: Settings, w: World, d: Deployment, o: Outcome, w': World)
    requires Step(s, w, d, o, w') && OwnListed(s.listing, w.containers, d.id) && ListedRunning(s.listing, d.id)
    requires ActionFor(s, w, d).Launch? ==> !o.stopFirst
    ensures exists k :: RunningAt(w'.containers, d.id, k)
  {
    SweepSparesPrimary(s.listing, w.containers, d, o.removed, o.swept);
    hide OwnListed, Swept, ListedRunning, ActionFor, PrimaryOf, LaunchOutcome, SetStatus, RetryAfterLaunch,
         DepsAfterLaunch;
    var p, a := PrimaryOf(s.listing, d).value.id, ActionFor(s, w, d);
    ActionShape(s, w, d);
    assert RunningAt(o.swept, d.id, p);
    if a.Launch? {
      LaunchKeepsARunner(o.swept, d, p, w'.containers, o);
    } else {
      assert RunningAt(w'.containers, d.id, p);
    }
  }

  /** The pass redeployed the deployment on the stop-first path. */
  ghost predicate StoppedFirst(pass: Pass, id: string) {
    pass.Full? && |pass.outcomes| == |pass.order| &&
    exists i :: 0 <= i < |pass.order| && pass.order[i].id == id && pass.outcomes[i].stopFirst
  }

  /** No pass takes a stored deployment's last running container away, whatever fails, unless it
      redeploys the deployment on the stop-first path. */
  lemma PassKeepsARunner(dashboard: string, w: World, pass: Pass, w': World, id: string, k: string)
    requires Passes(dashboard, w, pass, w') && id in w.deps && RunningAt(w.containers, id, k) && !StoppedFirst(pass, id)
    ensures exists k' :: RunningAt(w'.containers, id, k')
  {
    hide Step, Swept, OwnListed;
    if pass.Full? {
      var i := TurnOf(dashboard, w, pass, w', id);
      RunnerIsListed(pass.s.listing, w.containers, id, k);
      StepKeepsARunner(pass.s, pass.worlds[i], pass.order[i], pass.outcomes[i], pass.worlds[i + 1]);
      var k' :| RunningAt(pass.worlds[i + 1].containers, id, k');
      assert RunningAt(w'.containers, id, k');
    } else {
      assert RunningAt(w'.containers, id, k);
    }
  }

  lemma RunnerIsListed(listing: seq<D.Listed>, containers: map<string, Container>, id: string, k: string)
    requires D.Lists(listing, containers) && RunningAt(containers, id, k)
    ensures ListedRunning(listing, id)
  {
    var i :| 0 <= i < |listing| && listing[i].id == k;
    assert listing[i] in listing && D.Reports(listing[i], containers);
  }
}
