/** Two passes in which every call succeeds reach a world that no further pass changes; and heal
    attempts keep the backoff distance over any run of passes. */
module ReconcilerFixpoint {
  import opened Text
  import opened Engine
  import opened Selection
  import opened Reconciler
  import opened ReconcilerRuns
  import opened ReconcilerTurns
  import D = Docker
  import Store

  // ---------------------------------------------------------------- fault-free passes

  /** Every call of the turn succeeded, and a started container keeps running. */
  ghost predicate StepWell(s: Settings, w: World, d: Deployment, o: Outcome, w': World) {
    && o.patched && Stale(s.listing, d) <= o.removed
    && LaunchWell(o, w'.containers)
  }

  /** Every Docker and proxy reply of the launch was a success, and the container keeps running. */
  ghost predicate LaunchWell(o: Outcome, after: map<string, Container>) {
    o.fine && (o.made.Some? && o.made.value in after ==> after[o.made.value].running)
  }

  /** Then the launch succeeded, and it replaced what was there. */
  lemma WellLaunched(before: map<string, Container>, d: Deployment, former: Option<string>,
                     after: map<string, Container>,
                     o: Outcome)
    requires LaunchOutcome(before, d, former, after, o) && LaunchWell(o, after)
    ensures o.launched.Started? && o.made.Some? && RunningAt(after, d.id, o.made.value)
    ensures after[o.made.value].name == d.name && (former.Some? ==> former.value !in after)
  {
  }

  ghost predicate AllWell(pass: Pass) {
    && pass.Full? && |pass.worlds| == |pass.order| + 1 && |pass.outcomes| == |pass.order|
    && Orphans(pass.s.listing, pass.order) <= pass.removed
    && forall i :: 0 <= i < |pass.order| ==>
         StepWell(pass.s, pass.worlds[i], pass.order[i], pass.outcomes[i], pass.worlds[i + 1])
  }

  ghost predicate ClockPast(w: World, now: int) {
    forall id :: id in w.retry ==> w.retry[id].nextAllowedAt <= now
  }

  // ---------------------------------------------------------------- what is reached

  ghost predicate AtMostOne(containers: map<string, Container>, id: string) {
    forall j, k :: Owns(containers, id, j) && Owns(containers, id, k) ==> j == k
  }

  /** Reached after one pass: not Deploying, at most one container, and one that runs if Healthy. */
  ghost predicate Tidy(w: World, id: string)
    requires id in w.deps
  {
    && !w.deps[id].status.Deploying? && AtMostOne(w.containers, id)
    && (w.deps[id].status.Healthy? ==> exists k :: RunningAt(w.containers, id, k))
    && (!w.deps[id].status.Failed? ==> id !in w.retry)
  }

  /** Reached after two passes: what failed is not going to be retried. */
  ghost predicate Settled(w: World, id: string)
    requires id in w.deps
  {
    Tidy(w, id) && (w.deps[id].status.Failed? ==> !IsTransientFailure(w.deps[id].error))
  }

  ghost predicate NoOrphans(w: World) {
    forall k :: k in w.containers ==> w.containers[k].deployment in w.deps
  }

  lemma StaleOrPrimary(listing: seq<D.Listed>, containers: map<string, Container>, d: Deployment, k: string)
    requires OwnListed(listing, containers, d.id) && Owns(containers, d.id, k)
    ensures k in Stale(listing, d) || Some(k) == IdOf(PrimaryOf(listing, d))
  {
    CandidatesAre(listing, d.id);
    hide PrimaryOf, Candidates;
    var c :| c in listing && c.id == k && c.deployment == d.id;
    assert c in Candidates(listing, d.id);
  }

  /** Sweeping with success leaves only the primary. */
  lemma SweptToOne(listing: seq<D.Listed>, before: map<string, Container>, d: Deployment, removed: set<string>,
                   after: map<string, Container>)
    requires OwnListed(listing, before, d.id) && Swept(before, Stale(listing, d), removed, after)
    requires Stale(listing, d) <= removed
    ensures forall k :: Owns(after, d.id, k) ==>
              Some(k) == IdOf(PrimaryOf(listing, d)) && Owns(before, d.id, k) && after[k] == before[k]
  {
    hide PrimaryOf, OwnListed, Stale;
    forall k | Owns(after, d.id, k)
      ensures Some(k) == IdOf(PrimaryOf(listing, d)) && Owns(before, d.id, k) && after[k] == before[k]
    {
      StaleOrPrimary(listing, before, d, k);
    }
  }

  lemma LaunchedAlone(before: map<string, Container>, d: Deployment, former: Option<string>,
                      after: map<string, Container>, o: Outcome)
    requires LaunchOutcome(before, d, former, after, o) && LaunchWell(o, after)
    requires forall k :: Owns(before, d.id, k) ==> Some(k) == former
    ensures AtMostOne(after, d.id) && RunningAt(after, d.id, o.made.value)
  {
    forall k | Owns(after, d.id, k) ensures k == o.made.value { assert k != o.made.value ==> Owns(before, d.id, k); }
  }

  // ---------------------------------------------------------------- the three passes, one turn at a time

  /** What an action leaves in the records when every call succeeds. */
  lemma ActedWell(s: Settings, w: World, d: Deployment, a: Action, o: Outcome, w': World)
    requires Acted(s, w, d, a, o, w') && d.id in w.deps && w.deps[d.id] == d && o.patched
    requires a.Launch? ==> o.launched.Started?
    ensures d.id in w'.deps && w'.deps[d.id].status == StatusAfter(d.status, a, o.launched)
    ensures a.Keep? ==> w'.deps[d.id] == d
    ensures d.id !in w.retry ==> d.id !in w'.retry
    ensures a.Recover? || (a.Launch? && a.healing) ==> d.id !in w'.retry
    ensures !a.Launch? ==> w'.containers == w.containers
    ensures a.Launch? ==> LaunchOutcome(w.containers, d, a.former, w'.containers, o)
  {
    hide LaunchOutcome;
  }

  /** First pass. */
  lemma StepTidies(s: Settings, w: World, d: Deployment, o: Outcome, w': World)
    requires Step(s, w, d, o, w') && StepWell(s, w, d, o, w') && d.id in w.deps && w.deps[d.id] == d
    requires OwnListed(s.listing, w.containers, d.id)
    ensures d.id in w'.deps && Tidy(w', d.id)
  {
    RunsIsListed(s.listing, d);
    SweptToOne(s.listing, w.containers, d, o.removed, o.swept);
    if ListedRunning(s.listing, d.id) { SweepSparesPrimary(s.listing, w.containers, d, o.removed, o.swept); }
    ActionShape(s, w, d);
    hide OwnListed, Swept, Stale, ListedRunning, ActionFor, PrimaryOf, LaunchOutcome, SetStatus, RetryAfterLaunch,
         DepsAfterLaunch, Acted;
    var mid, a := w.(containers := o.swept, retry := ClearedAtStart(w.retry, d)), ActionFor(s, w, d);
    ActedWell(s, mid, d, a, o, w');
    if a.Launch? {
      LaunchedAlone(o.swept, d, a.former, w'.containers, o);
    } else if Runs(PrimaryOf(s.listing, d)) {
      assert RunningAt(w'.containers, d.id, PrimaryOf(s.listing, d).value.id);
    }
  }

  lemma FailedAction(s: Settings, w: World, d: Deployment)
    requires d.status.Failed? && (d.id in w.retry ==> w.retry[d.id].nextAllowedAt <= s.now)
    ensures var a := ActionFor(s, w, d);
            (a.Keep? <==> !IsTransientFailure(d.error)) && (!a.Keep? ==> a.Recover? || (a.Launch? && a.healing))
  {
    hide PrimaryOf, IsTransientFailure;
  }

  lemma RunnerOfOwnListed(listing: seq<D.Listed>, containers: map<string, Container>, id: string, k: string)
    requires OwnListed(listing, containers, id) && RunningAt(containers, id, k)
    ensures ListedRunning(listing, id)
  {
    var c :| c in listing && c.id == k && c.deployment == id;
    assert D.Reports(c, containers);
  }

  /** Second pass. */
  lemma StepSettles(s: Settings, w: World, d: Deployment, o: Outcome, w': World)
    requires Step(s, w, d, o, w') && StepWell(s, w, d, o, w') && d.id in w.deps && w.deps[d.id] == d
    requires OwnListed(s.listing, w.containers, d.id) && Tidy(w, d.id)
    requires d.id in w.retry ==> w.retry[d.id].nextAllowedAt <= s.now
    ensures d.id in w'.deps && Settled(w', d.id)
  {
    StepTidies(s, w, d, o, w');
    RunsIsListed(s.listing, d);
    if d.status.Healthy? {
      var k :| RunningAt(w.containers, d.id, k);
      RunnerOfOwnListed(s.listing, w.containers, d.id, k);
    }
    ActionShape(s, w, d);
    if d.status.Failed? { FailedAction(s, w, d); }
    hide OwnListed, Swept, ListedRunning, ActionFor, PrimaryOf, LaunchOutcome, SetStatus, RetryAfterLaunch,
         DepsAfterLaunch, Acted, IsTransientFailure;
    var mid, a := w.(containers := o.swept, retry := ClearedAtStart(w.retry, d)), ActionFor(s, w, d);
    ActedWell(s, mid, d, a, o, w');
  }

  lemma NothingStale(listing: seq<D.Listed>, containers: map<string, Container>, d: Deployment)
    requires OwnListed(listing, containers, d.id) && AtMostOne(containers, d.id)
    ensures Stale(listing, d) == {}
  {
    StaleIsOwn(listing, containers, d);
    CandidatesDistinct(listing, d.id);
    PrimaryIsBest(d.name, Candidates(listing, d.id));
    hide Primary, Candidates, OwnListed;
  }

  lemma SweptNothing(before: map<string, Container>, removed: set<string>, after: map<string, Container>)
    requires Swept(before, {}, removed, after)
    ensures after == before
  {
  }

  /** Any later pass. */
  lemma StepFixed(s: Settings, w: World, d: Deployment, o: Outcome, w': World)
    requires Step(s, w, d, o, w') && d.id in w.deps && w.deps[d.id] == d
    requires OwnListed(s.listing, w.containers, d.id) && Settled(w, d.id)
    ensures w' == w
  {
    NothingStale(s.listing, w.containers, d);
    SweptNothing(w.containers, o.removed, o.swept);
    RunsIsListed(s.listing, d);
    if d.status.Healthy? {
      var k :| RunningAt(w.containers, d.id, k);
      RunnerOfOwnListed(s.listing, w.containers, d.id, k);
    }
    hide OwnListed, Swept, ListedRunning, PrimaryOf, LaunchOutcome, IsTransientFailure, NormalizeDomain,
         ExitMessage, Stale, AtMostOne;
    assert ActionFor(s, w, d).Keep?;
    assert ClearedAtStart(w.retry, d) == w.retry;
  }

  // ---------------------------------------------------------------- whole passes

  lemma TidyView(w: World, w': World, id: string)
    requires id in w.deps && Tidy(w, id) && SameView(w, w', id)
    ensures id in w'.deps && Tidy(w', id)
  {
    if w.deps[id].status.Healthy? {
      var k :| RunningAt(w.containers, id, k);
      assert RunningAt(w'.containers, id, k);
    }
    assert id in w.retry <==> Entry(w.retry, id).Some?;
  }

  lemma {:induction false} ChainRecords(s: Settings, order: seq<Deployment>, worlds: seq<World>,
                                        outcomes: seq<Outcome>, n: nat)
    requires Chain(s, order, worlds, outcomes) && n <= |order|
    ensures worlds[n].deps.Keys == worlds[0].deps.Keys
    ensures worlds[n].seen == worlds[0].seen && worlds[n].reachable == worlds[0].reachable
  {
    hide Acted, Swept, ActionFor;
    if n > 0 {
      ChainRecords(s, order, worlds, outcomes, n - 1);
      var w, d, o := worlds[n - 1], order[n - 1], outcomes[n - 1];
      ActedRecords(s, w.(containers := o.swept, retry := ClearedAtStart(w.retry, d)), d, ActionFor(s, w, d), o,
                   worlds[n]);
    }
  }

  lemma PassRecords(dashboard: string, w: World, pass: Pass, w': World)
    requires Passes(dashboard, w, pass, w') && pass.Full?
    ensures w'.deps.Keys == w.deps.Keys && w'.seen && w'.reachable
  {
    hide Step, Swept;
    ChainRecords(pass.s, pass.order, pass.worlds, pass.outcomes, |pass.order|);
  }

  lemma PassLeavesNoOrphan(dashboard: string, w: World, pass: Pass, w': World)
    requires Passes(dashboard, w, pass, w') && AllWell(pass)
    ensures NoOrphans(w')
  {
    hide Step, StepWell;
    PassRecords(dashboard, w, pass, w');
    var last := pass.worlds[|pass.order|];
    forall k | k in w'.containers ensures w'.containers[k].deployment in w'.deps {
      var e := w'.containers[k].deployment;
      if e !in w.deps {
        ViewUntilTurn(pass.s, pass.order, pass.worlds, pass.outcomes, |pass.order|, e);
        OrphanIsListed(pass.s.listing, pass.order, w.containers, last.containers, e);
      }
    }
  }

  lemma OrphanIsListed(listing: seq<D.Listed>, order: seq<Deployment>, a: map<string, Container>,
                       b: map<string, Container>, e: string)
    requires D.Lists(listing, a) && SameOwn(a, b, e) && !Known(order, e)
    ensures forall k :: Owns(b, e, k) ==> k in Orphans(listing, order)
  {
    forall k | Owns(b, e, k) ensures k in Orphans(listing, order) {
      assert Owns(a, e, k);
      var i :| 0 <= i < |listing| && listing[i].id == k;
      assert D.Reports(listing[i], a) && listing[i] in listing;
    }
  }

  ghost predicate AllTidy(w: World) { forall id :: id in w.deps ==> Tidy(w, id) }

  ghost predicate AllSettled(w: World) { forall id :: id in w.deps ==> Settled(w, id) }

  lemma PassTidies(dashboard: string, w: World, pass: Pass, w': World)
    requires Passes(dashboard, w, pass, w') && AllWell(pass)
    ensures AllTidy(w')
  {
    hide Step, Swept, StepWell, Tidy, OwnListed, Orphans;
    PassRecords(dashboard, w, pass, w');
    forall id | id in w'.deps ensures Tidy(w', id) {
      var i := TurnOf(dashboard, w, pass, w', id);
      StepTidies(pass.s, pass.worlds[i], pass.order[i], pass.outcomes[i], pass.worlds[i + 1]);
      TidyView(pass.worlds[i + 1], w', id);
    }
  }

  lemma PassSettles(dashboard: string, w: World, pass: Pass, w': World)
    requires Passes(dashboard, w, pass, w') && AllWell(pass) && AllTidy(w) && ClockPast(w, pass.s.now)
    ensures AllSettled(w')
  {
    hide Step, Swept, StepWell, Tidy, OwnListed, Orphans;
    PassRecords(dashboard, w, pass, w');
    forall id | id in w'.deps ensures Settled(w', id) {
      var i := TurnOf(dashboard, w, pass, w', id);
      TidyView(w, pass.worlds[i], id);
      assert id in pass.worlds[i].retry ==> Entry(w.retry, id) == Some(pass.worlds[i].retry[id]);
      StepSettles(pass.s, pass.worlds[i], pass.order[i], pass.outcomes[i], pass.worlds[i + 1]);
      TidyView(pass.worlds[i + 1], w', id);
    }
  }

  lemma {:induction false} ChainFixed(s: Settings, order: seq<Deployment>, worlds: seq<World>, outcomes: seq<Outcome>,
                                      n: nat)
    requires Chain(s, order, worlds, outcomes) && n <= |order| && Enumerates(order, worlds[0].deps)
    requires D.Lists(s.listing, worlds[0].containers) && AllSettled(worlds[0])
    ensures worlds[n] == worlds[0]
  {
    hide Step, Settled, D.Lists, OwnListed;
    if n > 0 {
      ChainFixed(s, order, worlds, outcomes, n - 1);
      ListsOwn(s.listing, worlds[0].containers, order[n - 1].id);
      StepFixed(s, worlds[n - 1], order[n - 1], outcomes[n - 1], worlds[n]);
    }
  }

  lemma NothingOrphaned(listing: seq<D.Listed>, order: seq<Deployment>, w: World)
    requires D.Lists(listing, w.containers) && Enumerates(order, w.deps) && NoOrphans(w)
    ensures Orphans(listing, order) == {}
  {
    forall c | c in listing ensures Known(order, c.deployment) {
      assert D.Reports(c, w.containers) && c.deployment in w.deps;
    }
  }

  /** A settled world is left unchanged by every pass that gets to see the containers. */
  lemma PassFixed(dashboard: string, w: World, pass: Pass, w': World)
    requires Passes(dashboard, w, pass, w') && pass.Full? && w.seen && w.reachable && AllSettled(w) && NoOrphans(w)
    ensures w' == w
  {
    hide Step, Swept, Settled, Orphans, NoOrphans;
    ChainFixed(pass.s, pass.order, pass.worlds, pass.outcomes, |pass.order|);
    NothingOrphaned(pass.s.listing, pass.order, w);
    SweptNothing(w.containers, pass.removed, w'.containers);
  }

  // ---------------------------------------------------------------- what becomes of each deployment

  /** A fault-free pass deploys: a Deploying deployment whose domain is not the dashboard's becomes
      Healthy, and the container started for it runs. On the dashboard's domain it is Failed as
      reserved and nothing is started. */
  lemma DeploysWhenWell(dashboard: string, w: World, pass: Pass, w': World, id: string)
    requires Passes(dashboard, w, pass, w') && AllWell(pass) && id in w.deps && w.deps[id].status.Deploying?
    ensures id in w'.deps
    ensures !Reserved(dashboard, w.deps[id]) ==>
              w'.deps[id].status.Healthy? && w'.deps[id].error == "" && StartedFor(pass, id) &&
              exists i :: 0 <= i < |pass.order| && NewRunner(pass, i, w', id)
    ensures Reserved(dashboard, w.deps[id]) ==>
              w'.deps[id].status.Failed? && w'.deps[id].reason == "domain_reserved" &&
              w'.deps[id].error == ReservedMessage(dashboard) &&
              NothingMade(w.containers, w'.containers, id)
  {
    hide Passes, NormalizeDomain, NothingMade, StartedFor, HasListed, Stale, Orphans;
    var i := DeployingPass(dashboard, w, pass, w', id);
    var d, o := w.deps[id], pass.outcomes[i];
    assert StepWell(pass.s, pass.worlds[i], pass.order[i], o, pass.worlds[i + 1]);
    if !Reserved(dashboard, d) {
      assert o.launched.Started? && StartedAt(o, pass.worlds[i + 1], id);
      assert NewRunner(pass, i, w', id);
    }
  }

  /** The container started in turn i runs after the pass. */
  ghost predicate NewRunner(pass: Pass, i: nat, w': World, id: string)
    requires pass.Full? && i < |pass.order| && |pass.outcomes| == |pass.order| && |pass.worlds| == |pass.order| + 1
  {
    && pass.order[i].id == id && StartedAt(pass.outcomes[i], pass.worlds[i + 1], id)
    && RunningAt(w'.containers, id, pass.outcomes[i].made.value)
  }

  /** What two fault-free passes make of a status: what is wanted or transiently failed is Healthy,
      what is Idle or failed for good stays so. On the dashboard's domain it is Failed as reserved,
      unless the name of that domain makes the message look like an outage. */
  predicate Destined(dashboard: string, d: Deployment, after: Deployment) {
    && (d.status.Deploying? && !Reserved(dashboard, d) ==> after.status.Healthy?)
    && (d.status.Deploying? && Reserved(dashboard, d) && !IsTransientFailure(ReservedMessage(dashboard)) ==>
          after.status.Failed? && after.reason == "domain_reserved" && after.error == ReservedMessage(dashboard))
    && (d.status.Failed? && IsTransientFailure(d.error) ==> after.status.Healthy?)
    && (d.status.Idle? || (d.status.Failed? && !IsTransientFailure(d.error)) ==> after == d)
  }

  /** Convergence: from any world, two passes in which every call succeeds (the second after every
      pending retry time) reach a world that a third leaves unchanged. There no deployment is
      Deploying, no container is orphaned, every deployment has at most one container and a Healthy
      one has exactly one, which runs. */
  lemma TwoPassesConverge(dashboard: string, w: World, first: Pass, w1: World, second: Pass, w2: World, third: Pass,
                          w3: World)
    requires Passes(dashboard, w, first, w1) && AllWell(first)
    requires Passes(dashboard, w1, second, w2) && AllWell(second) && ClockPast(w1, second.s.now)
    requires Passes(dashboard, w2, third, w3) && third.Full?
    ensures w3 == w2
    ensures w2.deps.Keys == w.deps.Keys && NoOrphans(w2)
    ensures forall id :: id in w2.deps ==>
              !w2.deps[id].status.Deploying? && AtMostOne(w2.containers, id) &&
              (w2.deps[id].status.Healthy? ==> exists k :: RunningAt(w2.containers, id, k))
    ensures forall id :: id in w.deps ==> id in w2.deps && Destined(dashboard, w.deps[id], w2.deps[id])
  {
    assert first.Full? && second.Full?;
    hide Passes, AllWell, NoOrphans, AtMostOne, RunningAt;
    PassRecords(dashboard, w, first, w1);
    PassTidies(dashboard, w, first, w1);
    PassRecords(dashboard, w1, second, w2);
    PassSettles(dashboard, w1, second, w2);
    PassLeavesNoOrphan(dashboard, w1, second, w2);
    PassFixed(dashboard, w2, third, w3);
    forall id | id in w.deps ensures Destined(dashboard, w.deps[id], w2.deps[id]) {
      TwoPassesReach(dashboard, w, first, w1, second, w2, id);
    }
  }

  lemma TwoPassesReach(dashboard: string, w: World, first: Pass, w1: World, second: Pass, w2: World, id: string)
    requires Passes(dashboard, w, first, w1) && AllWell(first) && AllTidy(w1)
    requires Passes(dashboard, w1, second, w2) && AllWell(second) && ClockPast(w1, second.s.now)
    requires id in w.deps
    ensures id in w2.deps && Destined(dashboard, w.deps[id], w2.deps[id])
  {
    var d := w.deps[id];
    match d.status
    case Deploying =>
      DeploysWhenWell(dashboard, w, first, w1, id);
      if Reserved(dashboard, d) {
        FailedOnce(dashboard, w1, second, w2, id);
      } else {
        HealthyStays(dashboard, w1, second, w2, id);
      }
    case Idle =>
      var _ := QuietPass(dashboard, w, first, w1, id);
      var _ := QuietPass(dashboard, w1, second, w2, id);
    case Healthy =>
      PassRecords(dashboard, w, first, w1);
      PassRecords(dashboard, w1, second, w2);
    case Failed =>
      FailedOnce(dashboard, w, first, w1, id);
      if w1.deps[id].status.Healthy? {
        HealthyStays(dashboard, w1, second, w2, id);
      } else {
        FailedOnce(dashboard, w1, second, w2, id);
      }
  }

  /** A tidy Healthy deployment stays Healthy. */
  lemma HealthyStays(dashboard: string, w: World, pass: Pass, w': World, id: string)
    requires Passes(dashboard, w, pass, w') && pass.Full? && id in w.deps && w.deps[id].status.Healthy? && Tidy(w, id)
    ensures id in w'.deps && w'.deps[id].status.Healthy?
  {
    var k :| RunningAt(w.containers, id, k);
    RunnerIsListed(pass.s.listing, w.containers, id, k);
    hide Passes, ListedRunning, PrimaryOf;
    var _ := QuietPass(dashboard, w, pass, w', id);
  }

  /** A fault-free pass heals a transient failure, or leaves the record alone until its time comes; it
      always leaves a failure that is not transient. */
  lemma FailedOnce(dashboard: string, w: World, pass: Pass, w': World, id: string)
    requires Passes(dashboard, w, pass, w') && AllWell(pass) && id in w.deps && w.deps[id].status.Failed?
    ensures id in w'.deps
    ensures !IsTransientFailure(w.deps[id].error) ==> w'.deps[id] == w.deps[id]
    ensures IsTransientFailure(w.deps[id].error) ==> w'.deps[id].status.Healthy? || w'.deps[id] == w.deps[id]
    ensures IsTransientFailure(w.deps[id].error) && ClockPast(w, pass.s.now) ==> w'.deps[id].status.Healthy?
  {
    hide Passes, ListedRunning, IsTransientFailure, NothingMade, StartedFor, Stale, Orphans;
    var i := FailedPass(dashboard, w, pass, w', id);
    assert StepWell(pass.s, pass.worlds[i], pass.order[i], pass.outcomes[i], pass.worlds[i + 1]);
  }

  // ---------------------------------------------------------------- backoff over runs

  /** A pass with the worlds around it. */
  datatype Round = Round(before: World, pass: Pass, after: World)

  /** Any run of passes from a new reconciler; between two passes the store and the containers may
      change in any way. */
  ghost predicate IsRun(dashboard: string, run: seq<Round>) {
    && (forall i :: 0 <= i < |run| ==> Passes(dashboard, run[i].before, run[i].pass, run[i].after))
    && (|run| > 0 ==> run[0].before.retry == map[] && !run[0].before.seen)
    && (forall i :: 0 <= i < |run| - 1 ==> SameMemory(run[i].after, run[i + 1].before))
  }

  predicate SameMemory(w: World, w': World) {
    w'.retry == w.retry && w'.seen == w.seen && w'.reachable == w.reachable
  }

  /** The pass tries to heal the deployment. */
  ghost predicate Heals(r: Round, id: string) {
    r.pass.Full? && id in r.before.deps && HealAction(ActionFor(r.pass.s, r.before, r.before.deps[id]))
  }

  predicate HealAction(a: Action) { a.Launch? && a.healing }

  predicate Remembers(w: World, id: string) { id in w.retry }

  /** The pass forgets the deployment's retry entry. */
  predicate Clears(r: Round, id: string) { Remembers(r.before, id) && !Remembers(r.after, id) }

  function Attempts(w: World, id: string): nat { if id in w.retry then w.retry[id].attempts else 0 }

  lemma ActedRetry(s: Settings, w: World, d: Deployment, a: Action, o: Outcome, w': World)
    requires Acted(s, w, d, a, o, w')
    ensures Entry(w'.retry, d.id) == Entry(w.retry, d.id) || d.id !in w'.retry || HealAction(a)
    ensures HealAction(a) && d.id in w'.retry ==> w'.retry[d.id] == AfterFailure(Entry(w.retry, d.id), s.now)
  {
    hide LaunchOutcome, SetStatus, AfterFailure, DepsAfterLaunch;
  }

  /** A pass keeps a retry entry, forgets it, or advances it by a failed heal attempt. */
  lemma RoundRetry(dashboard: string, r: Round, id: string)
    requires Passes(dashboard, r.before, r.pass, r.after)
    ensures !Heals(r, id) && Remembers(r.after, id) ==> Entry(r.after.retry, id) == Entry(r.before.retry, id)
    ensures Heals(r, id) && Remembers(r.after, id) ==>
              r.after.retry[id] == AfterFailure(Entry(r.before.retry, id), r.pass.s.now)
  {
    if r.pass.Full? {
      if id in r.before.deps {
        var i := TurnOf(dashboard, r.before, r.pass, r.after, id);
        hide Passes, Swept, AfterFailure, OwnListed, SameOwn, Acted, Stale, PrimaryOf, Decide;
        var s, w, d, o, w' := r.pass.s, r.pass.worlds[i], r.pass.order[i], r.pass.outcomes[i], r.pass.worlds[i + 1];
        ActionShape(s, w, d);
        ActedRetry(s, w.(containers := o.swept, retry := ClearedAtStart(w.retry, d)), d, ActionFor(s, w, d), o, w');
        assert d.id in r.after.retry <==> Entry(r.after.retry, d.id).Some?;
      } else {
        hide Step, Swept;
        ViewUntilTurn(r.pass.s, r.pass.order, r.pass.worlds, r.pass.outcomes, |r.pass.order|, id);
      }
    }
  }

  /** Failed heal attempts on the deployment since its entry was last absent, before round n. */
  ghost function FailuresBefore(run: seq<Round>, id: string, n: nat): nat
    requires n <= |run|
  {
    if n == 0 || !Remembers(run[n - 1].after, id) then 0
    else FailuresBefore(run, id, n - 1) + (if Heals(run[n - 1], id) then 1 else 0)
  }

  lemma {:induction false} AttemptsCountFailures(dashboard: string, run: seq<Round>, id: string, n: nat)
    requires IsRun(dashboard, run) && n < |run|
    ensures Attempts(run[n].before, id) == FailuresBefore(run, id, n)
  {
    hide Passes, ActionFor, AfterFailure;
    if n > 0 {
      assert SameMemory(run[n - 1].after, run[n].before);
      AttemptsCountFailures(dashboard, run, id, n - 1);
      RoundRetry(dashboard, run[n - 1], id);
      FailureCounts(Entry(run[n - 1].before.retry, id), run[n - 1]);
    }
  }

  lemma FailureCounts(entry: Option<Retry>, r: Round)
    ensures r.pass.Full? ==>
              AfterFailure(entry, r.pass.s.now).attempts == 1 + (if entry.Some? then entry.value.attempts else 0)
  {
  }

  lemma {:induction false} EntryLasts(dashboard: string, run: seq<Round>, id: string, i: nat, j: nat)
    requires IsRun(dashboard, run) && i < j < |run| && Remembers(run[i].after, id)
    requires forall k :: i < k < j ==> !Heals(run[k], id) && !Clears(run[k], id)
    ensures Entry(run[j].before.retry, id) == Entry(run[i].after.retry, id)
  {
    hide Passes, Heals;
    if j > i + 1 {
      EntryLasts(dashboard, run, id, i, j - 1);
      assert Remembers(run[j - 1].before, id) <==> Entry(run[j - 1].before.retry, id).Some?;
      assert Remembers(run[i].after, id) <==> Entry(run[i].after.retry, id).Some?;
      assert !Clears(run[j - 1], id);
      RoundRetry(dashboard, run[j - 1], id);
    }
  }

  lemma HealNeedsClock(dashboard: string, r: Round, id: string)
    requires Passes(dashboard, r.before, r.pass, r.after) && Heals(r, id) && !Reconnected(r.before)
    ensures CanRetry(Entry(r.before.retry, id), r.pass.s.now, false) && r.before.deps[id].id == id
  {
    var i := TurnOf(dashboard, r.before, r.pass, r.after, id);
    hide Chain, Swept, D.Lists, PrimaryOf, IsTransientFailure, NormalizeDomain, ExitMessage, Step, SameOwn,
         OwnListed;
  }

  /** Two consecutive heal attempts on a deployment, with no clear and no Docker reconnect between
      them, are at least min(15s * 2^n, 120s) apart, where n counts the failed attempts before. */
  lemma HealsAreSpaced(dashboard: string, run: seq<Round>, id: string, i: nat, j: nat)
    requires IsRun(dashboard, run) && i < j < |run| && Heals(run[i], id) && Heals(run[j], id)
    requires Remembers(run[i].after, id) && forall k :: i < k < j ==> !Heals(run[k], id) && !Clears(run[k], id)
    requires !Reconnected(run[j].before) && run[i].pass.s.now > 0
    ensures run[j].pass.s.now - run[i].pass.s.now >= Delay(FailuresBefore(run, id, i))
  {
    hide Passes, FailuresBefore, ActionFor, Power2, HealAction;
    AttemptsCountFailures(dashboard, run, id, i);
    EntryLasts(dashboard, run, id, i, j);
    RoundRetry(dashboard, run[i], id);
    HealNeedsClock(dashboard, run[j], id);
  }
}
