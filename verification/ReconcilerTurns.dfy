/** What a full pass makes of each record, status by status, whatever Docker and the store reply. */
module ReconcilerTurns {
  import opened Text
  import opened Engine
  import opened Selection
  import opened Reconciler
  import opened ReconcilerRuns
  import D = Docker
  import Store

  /** The deployment asks for the dashboard's own domain. */
  predicate Reserved(dashboard: string, d: Deployment) { dashboard != "" && NormalizeDomain(d.domain) == dashboard }

  ghost predicate HasListed(listing: seq<D.Listed>, id: string) { exists c :: c in listing && c.deployment == id }

  /** No container of the deployment is new. */
  ghost predicate NothingMade(before: map<string, Container>, after: map<string, Container>, id: string) {
    forall k :: Owns(after, id, k) ==> Owns(before, id, k)
  }

  // ---------------------------------------------------------------- one turn

  lemma PrimaryListed(listing: seq<D.Listed>, d: Deployment)
    requires DistinctIds(listing)
    ensures PrimaryOf(listing, d).Some? <==> HasListed(listing, d.id)
  {
    hide Primary, Candidates;
    CandidatesAre(listing, d.id);
    CandidatesDistinct(listing, d.id);
    PrimaryIsBest(d.name, Candidates(listing, d.id));
    if HasListed(listing, d.id) {
      var c :| c in listing && c.deployment == d.id;
      assert c in Candidates(listing, d.id);
    }
    if Candidates(listing, d.id) != [] { assert Candidates(listing, d.id)[0] in listing; }
  }

  lemma SweepMakesNothing(before: map<string, Container>, ids: set<string>, removed: set<string>,
                          after: map<string, Container>, id: string)
    requires Swept(before, ids, removed, after)
    ensures NothingMade(before, after, id)
  {
    forall k | Owns(after, id, k) ensures Owns(before, id, k) {
      if k in ids { assert OnlyWeaker(before, after, k); }
    }
  }

  /** The record after a write that the store may not take. */
  function Written(d: Deployment, o: Outcome, new': Deployment): Deployment { if o.patched then new' else d }

  lemma ActedRecord(s: Settings, w: World, d: Deployment, a: Action, o: Outcome, w': World)
    requires Acted(s, w, d, a, o, w') && d.id in w.deps && w.deps[d.id] == d
    ensures d.id in w'.deps && (a.Keep? ==> w'.deps[d.id] == d)
    ensures a.Mark? ==> w'.deps[d.id] == Written(d, o, d.(status := Store.Failed, reason := a.reason, error := a.error))
    ensures a.Recover? ==> w'.deps[d.id] == Written(d, o, Recovered(d))
    ensures a.Launch? ==> LaunchOutcome(w.containers, d, a.former, w'.containers, o)
    ensures a.Launch? ==> w'.deps[d.id] == Written(d, o, AfterLaunch(d, o.launched, a.former, a.healing))
    ensures !a.Launch? ==> w'.containers == w.containers
    ensures a.Recover? ==> d.id !in w'.retry
    ensures a.Launch? && a.healing ==> Entry(w'.retry, d.id) == EntryAfterHeal(Entry(w.retry, d.id), o.launched, s.now)
    ensures a.Keep? || a.Mark? ==> w'.retry == w.retry
  {
    hide LaunchOutcome, AfterFailure;
  }

  function EntryAfterHeal(entry: Option<Retry>, launched: D.Launched, now: int): Option<Retry> {
    if launched.Started? then None else Some(AfterFailure(entry, now))
  }

  function Recovered(d: Deployment): Deployment {
    d.(status := Store.Healthy, reason := "retry_recovered_running", error := "")
  }

  /** A success stores the runtime ports and no error, a refusal the reported error. */
  function AfterLaunch(d: Deployment, launched: D.Launched, former: Option<string>, healing: bool): Deployment {
    match launched
    case Started(ports) =>
      d.(ports := ports, status := Store.Healthy, reason := SuccessReason(former, healing), error := "")
    case Refused(error) => d.(status := Store.Failed, reason := FailureReason(former, healing), error := error)
  }

  /** The launch of a turn, as the world after it shows it. */
  ghost predicate Launched(s: Settings, d: Deployment, o: Outcome, w': World, success: string, failure: string) {
    && d.id in w'.deps
    && (match o.launched
        case Started(ports) =>
          w'.deps[d.id] == Written(d, o, d.(ports := ports, status := Store.Healthy, reason := success, error := ""))
        case Refused(error) =>
          w'.deps[d.id] == Written(d, o, d.(status := Store.Failed, reason := failure, error := error)))
    && (o.launched.Started? ==> StartedAt(o, w', d.id))
    && (o.fine ==> o.launched.Started?)
  }

  lemma LaunchedNow(s: Settings, before: map<string, Container>, d: Deployment, former: Option<string>, healing: bool,
                    o: Outcome, w': World)
    requires LaunchOutcome(before, d, former, w'.containers, o) && before == o.swept && d.id in w'.deps
    requires w'.deps[d.id] == Written(d, o, AfterLaunch(d, o.launched, former, healing))
    ensures Launched(s, d, o, w', SuccessReason(former, healing), FailureReason(former, healing))
  {
    if o.launched.Started? { LaunchStarts(before, d, former, w'.containers, o); }
  }

  function ReservedMessage(dashboard: string): string { "domain \"" + dashboard + "\" is reserved for dashboard" }

  /** A Deploying record is launched, unless its domain is the dashboard's. */
  lemma DeployingTurn(s: Settings, w: World, d: Deployment, o: Outcome, w': World)
    requires Step(s, w, d, o, w') && d.id in w.deps && w.deps[d.id] == d && d.status.Deploying?
    requires OwnListed(s.listing, w.containers, d.id)
    ensures d.id in w'.deps
    ensures Reserved(s.dashboard, d) ==>
              NothingMade(w.containers, w'.containers, d.id) &&
              w'.deps[d.id] == Written(d, o, d.(status := Store.Failed, reason := "domain_reserved",
                                                error := ReservedMessage(s.dashboard)))
    ensures !Reserved(s.dashboard, d) && HasListed(s.listing, d.id) ==>
              Launched(s, d, o, w', "redeploy_start_succeeded", "redeploy_start_failed")
    ensures !Reserved(s.dashboard, d) && !HasListed(s.listing, d.id) ==>
              Launched(s, d, o, w', "deploy_start_succeeded", "deploy_start_failed")
  {
    PrimaryListed(s.listing, d);
    SweepMakesNothing(w.containers, Stale(s.listing, d), o.removed, o.swept, d.id);
    var a := ActionFor(s, w, d);
    hide OwnListed, Swept, HasListed, NormalizeDomain, PrimaryOf, LaunchOutcome, SetStatus, RetryAfterLaunch,
         DepsAfterLaunch, Acted, Stale, IsTransientFailure, ExitMessage, NothingMade, StartedAt;
    ActedRecord(s, w.(containers := o.swept, retry := ClearedAtStart(w.retry, d)), d, a, o, w');
    if a.Launch? { LaunchedNow(s, o.swept, d, a.former, a.healing, o, w'); }
  }

  /** A Failed record stays as it is, recovers, or is healed. */
  lemma FailedTurn(s: Settings, w: World, d: Deployment, o: Outcome, w': World)
    requires Step(s, w, d, o, w') && d.id in w.deps && w.deps[d.id] == d && d.status.Failed?
    requires OwnListed(s.listing, w.containers, d.id)
    ensures d.id in w'.deps
    ensures var heals := IsTransientFailure(d.error) && !ListedRunning(s.listing, d.id) &&
                         CanRetry(Entry(w.retry, d.id), s.now, s.reconnected);
            var recovers := IsTransientFailure(d.error) && ListedRunning(s.listing, d.id);
            && (!heals && !recovers ==>
                  w'.deps[d.id] == d && Entry(w'.retry, d.id) == Entry(w.retry, d.id) &&
                  NothingMade(w.containers, w'.containers, d.id))
            && (recovers ==> w'.deps[d.id] == Written(d, o, Recovered(d)) && d.id !in w'.retry &&
                             NothingMade(w.containers, w'.containers, d.id))
            && (heals ==> Launched(s, d, o, w', "retry_start_succeeded", "retry_start_failed_transient") &&
                          Entry(w'.retry, d.id) == EntryAfterHeal(Entry(w.retry, d.id), o.launched, s.now))
  {
    RunsIsListed(s.listing, d);
    SweepMakesNothing(w.containers, Stale(s.listing, d), o.removed, o.swept, d.id);
    var a := ActionFor(s, w, d);
    hide OwnListed, Swept, ListedRunning, PrimaryOf, LaunchOutcome, SetStatus, RetryAfterLaunch, DepsAfterLaunch, Acted,
         Stale, IsTransientFailure, NothingMade, StartedAt, CanRetry, AfterFailure;
    ActedRecord(s, w.(containers := o.swept, retry := ClearedAtStart(w.retry, d)), d, a, o, w');
    if a.Launch? { LaunchedNow(s, o.swept, d, a.former, a.healing, o, w'); }
  }

  /** An Idle record stays as it is and gets no container; a Healthy one keeps its record while a
      container runs, and else tells how its primary exited. */
  lemma QuietTurn(s: Settings, w: World, d: Deployment, o: Outcome, w': World)
    requires Step(s, w, d, o, w') && d.id in w.deps && w.deps[d.id] == d && (d.status.Idle? || d.status.Healthy?)
    requires OwnListed(s.listing, w.containers, d.id)
    ensures d.id in w'.deps && NothingMade(w.containers, w'.containers, d.id)
    ensures d.status.Idle? || ListedRunning(s.listing, d.id) ==> w'.deps[d.id] == d
    ensures d.status.Healthy? && !ListedRunning(s.listing, d.id) ==>
              var p := PrimaryOf(s.listing, d);
              var exit := if p.Some? then p.value.exit else None;
              w'.deps[d.id] ==
                Written(d, o, d.(status := Store.Failed, reason := ExitReason(exit), error := ExitMessage(exit)))
  {
    RunsIsListed(s.listing, d);
    SweepMakesNothing(w.containers, Stale(s.listing, d), o.removed, o.swept, d.id);
    var a := ActionFor(s, w, d);
    hide OwnListed, Swept, ListedRunning, PrimaryOf, LaunchOutcome, SetStatus, RetryAfterLaunch, DepsAfterLaunch, Acted,
         Stale, NothingMade, ExitMessage, NormalizeDomain;
    ActedRecord(s, w.(containers := o.swept, retry := ClearedAtStart(w.retry, d)), d, a, o, w');
  }

  // ---------------------------------------------------------------- a whole pass

  /** The launch of turn i, as the world after the pass shows it. */
  ghost predicate LaunchedIn(pass: Pass, i: nat, w': World, id: string, success: string, failure: string)
    requires pass.Full? && i < |pass.order| && |pass.outcomes| == |pass.order| && |pass.worlds| == |pass.order| + 1
  {
    var d, o := pass.order[i], pass.outcomes[i];
    && d.id == id && Launched(pass.s, d, o, pass.worlds[i + 1], success, failure)
    && id in w'.deps && w'.deps[id] == pass.worlds[i + 1].deps[id]
    && (o.launched.Started? ==> StartedFor(pass, id) && Owns(w'.containers, id, o.made.value) &&
                                w'.containers[o.made.value] == pass.worlds[i + 1].containers[o.made.value])
  }

  lemma ShownAfter(pass: Pass, i: nat, w': World, id: string, success: string, failure: string)
    requires pass.Full? && i < |pass.order| && |pass.outcomes| == |pass.order| && |pass.worlds| == |pass.order| + 1
    requires pass.order[i].id == id && SameView(pass.worlds[i + 1], w', id)
    requires Launched(pass.s, pass.order[i], pass.outcomes[i], pass.worlds[i + 1], success, failure)
    ensures LaunchedIn(pass, i, w', id, success, failure)
  {
    var o := pass.outcomes[i];
    if o.launched.Started? { assert StartedAt(o, pass.worlds[i + 1], id); }
  }

  lemma NothingMadeLater(a: map<string, Container>, b: map<string, Container>, c: map<string, Container>,
                         d: map<string, Container>, id: string)
    requires SameOwn(a, b, id) && NothingMade(b, c, id) && SameOwn(c, d, id)
    ensures NothingMade(a, d, id)
  {
  }

  /** A full pass launches every Deploying deployment and records how it went, unless its domain is the
      dashboard's: then it is Failed as reserved and gets no container. */
  lemma DeployingPass(dashboard: string, w: World, pass: Pass, w': World, id: string) returns (i: nat)
    requires Passes(dashboard, w, pass, w') && pass.Full? && id in w.deps && w.deps[id].status.Deploying?
    ensures i < |pass.order| && |pass.outcomes| == |pass.order| && |pass.worlds| == |pass.order| + 1
    ensures pass.order[i] == w.deps[id] && id in w'.deps
    ensures var d, o := w.deps[id], pass.outcomes[i];
            if Reserved(dashboard, d) then
              NothingMade(w.containers, w'.containers, id) &&
              w'.deps[id] == Written(d, o, d.(status := Store.Failed, reason := "domain_reserved",
                                              error := ReservedMessage(dashboard)))
            else if HasListed(pass.s.listing, id)
            then LaunchedIn(pass, i, w', id, "redeploy_start_succeeded", "redeploy_start_failed")
            else LaunchedIn(pass, i, w', id, "deploy_start_succeeded", "deploy_start_failed")
  {
    assert pass.s.dashboard == dashboard;
    i := TurnOf(dashboard, w, pass, w', id);
    hide Passes, Step, OwnListed, NothingMade, Launched, LaunchedIn, HasListed, NormalizeDomain, SameOwn;
    var s, wi, d, o, wj := pass.s, pass.worlds[i], pass.order[i], pass.outcomes[i], pass.worlds[i + 1];
    DeployingTurn(s, wi, d, o, wj);
    if Reserved(dashboard, d) {
      NothingMadeLater(w.containers, wi.containers, wj.containers, w'.containers, id);
    } else if HasListed(s.listing, id) {
      ShownAfter(pass, i, w', id, "redeploy_start_succeeded", "redeploy_start_failed");
    } else {
      ShownAfter(pass, i, w', id, "deploy_start_succeeded", "deploy_start_failed");
    }
  }

  /** A full pass leaves a Failed deployment alone, recovers it if a container of it runs, or heals it
      if the backoff allows; only transient failures are recovered or healed. */
  lemma FailedPass(dashboard: string, w: World, pass: Pass, w': World, id: string) returns (i: nat)
    requires Passes(dashboard, w, pass, w') && pass.Full? && id in w.deps && w.deps[id].status.Failed?
    ensures i < |pass.order| && |pass.outcomes| == |pass.order| && |pass.worlds| == |pass.order| + 1
    ensures pass.order[i] == w.deps[id] && id in w'.deps
    ensures var d, o, entry := w.deps[id], pass.outcomes[i], Entry(w.retry, id);
            if !IsTransientFailure(d.error) ||
               (!ListedRunning(pass.s.listing, id) && !CanRetry(entry, pass.s.now, Reconnected(w)))
            then w'.deps[id] == d && Entry(w'.retry, id) == entry && NothingMade(w.containers, w'.containers, id)
            else if ListedRunning(pass.s.listing, id)
            then w'.deps[id] == Written(d, o, Recovered(d)) && id !in w'.retry &&
                 NothingMade(w.containers, w'.containers, id)
            else LaunchedIn(pass, i, w', id, "retry_start_succeeded", "retry_start_failed_transient") &&
                 Entry(w'.retry, id) == EntryAfterHeal(entry, o.launched, pass.s.now)
  {
    assert pass.s.reconnected == Reconnected(w);
    i := TurnOf(dashboard, w, pass, w', id);
    hide Passes, Step, OwnListed, NothingMade, Launched, LaunchedIn, ListedRunning, IsTransientFailure, CanRetry,
         AfterFailure, SameOwn;
    var s, wi, d, o, wj := pass.s, pass.worlds[i], pass.order[i], pass.outcomes[i], pass.worlds[i + 1];
    FailedTurn(s, wi, d, o, wj);
    assert id in wj.retry <==> Entry(wj.retry, id).Some?;
    assert id in w'.retry <==> Entry(w'.retry, id).Some?;
    if !IsTransientFailure(d.error) || ListedRunning(s.listing, id) ||
       !CanRetry(Entry(w.retry, id), s.now, s.reconnected)
    {
      NothingMadeLater(w.containers, wi.containers, wj.containers, w'.containers, id);
    } else {
      ShownAfter(pass, i, w', id, "retry_start_succeeded", "retry_start_failed_transient");
    }
  }

  /** A full pass leaves an Idle deployment and a Healthy one with a running container as they are; a
      Healthy one without is Failed with the way its primary exited. */
  lemma QuietPass(dashboard: string, w: World, pass: Pass, w': World, id: string) returns (i: nat)
    requires Passes(dashboard, w, pass, w') && pass.Full? && id in w.deps
    requires w.deps[id].status.Idle? || w.deps[id].status.Healthy?
    ensures i < |pass.order| && |pass.outcomes| == |pass.order| && pass.order[i] == w.deps[id] && id in w'.deps
    ensures NothingMade(w.containers, w'.containers, id)
    ensures var d := w.deps[id];
            if d.status.Idle? || ListedRunning(pass.s.listing, id) then w'.deps[id] == d
            else
              var p := PrimaryOf(pass.s.listing, d);
              var exit := if p.Some? then p.value.exit else None;
              w'.deps[id] == Written(d, pass.outcomes[i],
                                     d.(status := Store.Failed, reason := ExitReason(exit), error := ExitMessage(exit)))
  {
    i := TurnOf(dashboard, w, pass, w', id);
    hide Passes, Step, OwnListed, NothingMade, ListedRunning, PrimaryOf, ExitMessage, SameOwn;
    QuietTurn(pass.s, pass.worlds[i], pass.order[i], pass.outcomes[i], pass.worlds[i + 1]);
    NothingMadeLater(w.containers, pass.worlds[i].containers, pass.worlds[i + 1].containers, w'.containers, id);
  }
}
