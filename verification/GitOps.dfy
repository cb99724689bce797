/** The command sequence plan, apply, export, plan (api/cmd/lotsen/config.go) run as one program. */
module GitOps {
  import opened Text
  import opened Ordering
  import opened ConfigV1
  import opened Plan
  import opened Build
  import opened Export
  import opened Apply
  import opened RoundTrip
  import opened ApplySteps
  import opened ApplyRuns
  import opened Replan

  /** Planning against the exported state, applying with any failures, exporting and planning again:
      the second plan lists exactly the failed actions of the first. Export and Execute list the
      deployments independently, in any two map orders. */
  method PlanApplyReplan(ip: string -> bool, sha: (PlanDoc, Summary) -> string, env: Env, desired: Spec, live: Live,
                         order: seq<string>, listing: seq<string>)
    returns (first: PlanDoc, r: Result, second: PlanDoc)
    requires Setting(ip, env, desired, live.world, order) && Enumerates(listing, live.world.store.deployments.Keys)
    modifies live
    ensures forall c :: ListsFailures(DeploymentKind, first.deployments, second.deployments, r.outcomes, c)
    ensures forall c :: ListsFailures(RegistryKind, first.registries, second.registries, r.outcomes, c)
    ensures if Reported(r.outcomes, HostKind, UpdateVerb, HOST, Failed) && first.hostUpdate != []
            then second.hostUpdate == first.hostUpdate && second.hostNoop == first.hostNoop
            else second.hostUpdate == [] && second.hostNoop == [Change(HOST, [])]
  {
    hide ListsFailures, BuildPlan, ExportSpec, ValidSpec, RunActions, OutcomeAt, ActionsOf, Spelled, FreshIds,
         GoodBase, GeneratedId;
    ghost var w := live.world;
    var want := Document(API_VERSION, KIND, Some(desired));
    assert forall id :: id in order ==> id in live.world.store.deployments;
    var exported := ExportDocument(ip, env.base, live.world, order);
    var planned;
    ghost var mo, mo';
    planned, mo := RunBuild(sha, want, exported.value);
    first := planned.value.plan;
    assert forall id :: id in listing ==> id in live.world.store.deployments;
    var ok;
    r, ok := live.Execute(env, desired, first, Some(Listed(live.world, listing)), true);
    assert RanListing(env, desired, w, listing, ActionsOf(PlanOf(env, desired, w, order, mo)), live.world, r.outcomes);
    assert AppliedPlan(ip, env, desired, w, order, mo, live.world, r.outcomes);

    var order' := SortedKeys(live.world.store.deployments.Keys);
    SortedIsOrder(order', live.world.store.deployments.Keys);
    ReexportValidates(ip, env, desired, w, order, mo, live.world, r.outcomes, order');
    exported := ExportDocument(ip, env.base, live.world, order');
    planned, mo' := RunBuild(sha, want, exported.value);
    second := planned.value.plan;
    ApplyConverges(ip, env, desired, w, order, mo, live.world, r.outcomes, order', mo');
  }

  lemma SortedIsOrder(keys: seq<string>, s: set<string>)
    requires AreSortedKeys(keys, s)
    ensures Enumerates(keys, s)
  {
    forall i, j | 0 <= i < j < |keys|
      ensures Self(keys[i]) != Self(keys[j])
    {
      assert Less(Self(keys[i]), Self(keys[j]));
    }
  }
}
