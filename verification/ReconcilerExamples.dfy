/** Fault-free passes exist from every world, so the convergence theorem speaks of real runs. */
module ReconcilerExamples {
  import opened Text
  import opened Ordering
  import opened Engine
  import opened Selection
  import opened Reconciler
  import opened ReconcilerRuns
  import opened ReconcilerFixpoint
  import D = Docker
  import Store

  lemma {:induction false} LongerThanAll(used: set<string>) returns (n: nat)
    ensures forall s :: s in used ==> |s| < n
  {
    if used == {} {
      n := 0;
    } else {
      var s :| s in used;
      var m := LongerThanAll(used - {s});
      n := if |s| < m then m else |s| + 1;
    }
  }

  lemma NewId(used: set<string>) returns (id: string)
    ensures id !in used
  {
    var n := LongerThanAll(used);
    id := seq(n, i => 'x');
  }

  lemma WellLaunch(before: map<string, Container>, d: Deployment, former: Option<string>, o: Outcome)
    returns (o': Outcome, after: map<string, Container>)
    ensures o' == o.(made := o'.made, stopFirst := false, fine := true, launched := D.Started([]))
    ensures LaunchOutcome(before, d, former, after, o') && LaunchWell(o', after)
  {
    var gone := if former.Some? then {former.value} else {};
    var id := NewId(before.Keys + gone);
    after := (before - gone)[id := Container(d.name, d.id, true, ExitDetails(0, false, ""))];
    o' := o.(made := Some(id), stopFirst := false, fine := true, launched := D.Started([]));
  }

  lemma WellStep(s: Settings, w: World, d: Deployment) returns (o: Outcome, w': World)
    ensures Step(s, w, d, o, w') && StepWell(s, w, d, o, w')
  {
    hide LaunchOutcome, Stale, Decide, PrimaryOf, SetStatus;
    var stale, a := Stale(s.listing, d), ActionFor(s, w, d);
    o := Outcome(w.containers - stale, stale, None, false, true, D.Refused(""), true);
    w' := w.(containers := o.swept, retry := ClearedAtStart(w.retry, d));
    match a
    case Keep =>
    case Mark(reason, error) =>
      w' := w'.(deps := SetStatus(w.deps, d.id, None, Store.Failed, reason, error, true));
    case Recover =>
      w' := w'.(retry := w'.retry - {d.id},
                deps := SetStatus(w.deps, d.id, None, Store.Healthy, "retry_recovered_running", "", true));
    case Launch(former, healing) =>
      var after;
      o, after := WellLaunch(o.swept, d, former, o);
      w' := w'.(containers := after, retry := RetryAfterLaunch(w'.retry, d.id, healing, o.launched, s.now),
                deps := DepsAfterLaunch(w.deps, d.id, a, o.launched, true));
  }

  lemma {:induction false} WellChain(s: Settings, w: World, order: seq<Deployment>)
    returns (worlds: seq<World>, outcomes: seq<Outcome>)
    ensures Chain(s, order, worlds, outcomes) && worlds[0] == w
    ensures forall i :: 0 <= i < |order| ==> StepWell(s, worlds[i], order[i], outcomes[i], worlds[i + 1])
  {
    hide Step, StepWell;
    if order == [] {
      worlds, outcomes := [w], [];
    } else {
      var n := |order| - 1;
      var front, done := WellChain(s, w, order[..n]);
      var o, w' := WellStep(s, front[n], order[n]);
      worlds, outcomes := front + [w'], done + [o];
      forall i | 0 <= i < |order|
        ensures Step(s, worlds[i], order[i], outcomes[i], worlds[i + 1]) &&
                StepWell(s, worlds[i], order[i], outcomes[i], worlds[i + 1])
      {
        if i < n { assert order[..n][i] == order[i] && worlds[i] == front[i] && worlds[i + 1] == front[i + 1]; }
      }
    }
  }

  lemma SomeOrder(deps: map<string, Deployment>) returns (order: seq<Deployment>)
    requires WellKeyed(deps)
    ensures Enumerates(order, deps)
  {
    var ids := KeysInOrder(deps.Keys);
    hide Leq;
    assert forall i :: 0 <= i < |ids| ==> ids[i] in ids;
    order := seq(|ids|, i requires 0 <= i < |ids| => deps[ids[i]]);
    forall i, j | 0 <= i < j < |order| ensures order[i].id != order[j].id { assert Less(Self(ids[i]), Self(ids[j])); }
    forall k | k in deps ensures exists i :: 0 <= i < |order| && order[i].id == k {
      var i :| 0 <= i < |ids| && ids[i] == k;
      assert order[i].id == k;
    }
  }

  lemma SomeListing(containers: map<string, Container>) returns (listing: seq<D.Listed>)
    ensures D.Lists(listing, containers)
  {
    var ids := KeysInOrder(containers.Keys);
    hide Leq;
    assert forall i :: 0 <= i < |ids| ==> ids[i] in ids;
    listing := seq(|ids|, i requires 0 <= i < |ids| =>
      D.Listed(ids[i], containers[ids[i]].name, containers[ids[i]].deployment, containers[ids[i]].running, None));
    forall i, j | 0 <= i < j < |listing|
      ensures listing[i].id != listing[j].id
    {
      assert Less(Self(ids[i]), Self(ids[j]));
    }
    forall k | k in containers ensures exists i :: 0 <= i < |listing| && listing[i].id == k {
      var i :| 0 <= i < |ids| && ids[i] == k;
      assert listing[i].id == k;
    }
  }

  /** From every world there is a pass in which every call succeeds. */
  lemma WellPassExists(dashboard: string, w: World, now: int) returns (pass: Pass, w': World)
    requires WellKeyed(w.deps)
    ensures Passes(dashboard, w, pass, w') && AllWell(pass) && pass.s.now == now
  {
    hide Step, StepWell, Orphans;
    var order := SomeOrder(w.deps);
    var listing := SomeListing(w.containers);
    var s := Settings(dashboard, now, Reconnected(w), listing);
    var worlds, outcomes := WellChain(s, w.(seen := true, reachable := true), order);
    var removed := Orphans(listing, order);
    w' := worlds[|order|].(containers := worlds[|order|].containers - removed);
    pass := Full(s, order, worlds, outcomes, removed);
  }
}
