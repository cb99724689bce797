# Lotsen, verified model

Lotsen is a small container orchestrator: an API that keeps deployments in a JSON store, an
orchestrator that makes Docker agree with the store, a proxy that routes domains to deployments, and
a command line that plans and applies configuration documents. This project models the parts of it
whose behaviour depends on many branches, on state or on interleaving, and proves what they promise.
`dafny verify dfyconfig.toml` checks everything.

## How it is organised

| area | files | main results |
|---|---|---|
| plan and apply | `ConfigV1`, `Plan`, `Differences`, `Build`, `Export`, `Apply`, `RoundTrip`, `WrittenRecords`, `Views`, `ApplySteps`, `ApplyFaults`, `ApplyRuns`, `Replan`, `GitOps`, `ApplyRedeploy` | `Replan.ApplyConverges`, `Replan.FaultFreeApplySuffices`, `Build.BuildIgnoresOrderExactly`, `Plan.PlanPartitions`, `Differences.DeploymentDiffExactly`, `ApplyRedeploy.RedeployCheckExactly` |
| reconciler | `Selection`, `Reconciler`, `ReconcilerRuns`, `ReconcilerTurns`, `ReconcilerFixpoint`, `ReconcilerExamples` | `TwoPassesConverge`, `DeployingPass`, `FailedPass`, `HealthyIsEarned`, `HealthyIsLost`, `PassKeepsARunner`, `HealsAreSpaced` |
| container replacement | `Engine`, `Docker` | `Docker.StartAndReplace` |
| API and host ports | `Ports`, `HostPorts`, `Api`, `ApiRuns`, `ApiWrites` | `PortsNeverClash`, `UpstreamsAreOwn`, `CreateCarries`, `UpdateCarries`, `PatchMerges`, `ResubmitRequest`, `UpdateRedeploySound`, `PatchRedeploySound` |
| proxy | `Routing`, `Scanner`, `ScannerBursts`, `Waf` | `PollerRefinesRebuild`, `LookupServes`, `QuietIsNeverBlocked`, `BlockHolds`, `BurstBlocksExactly`, `AnswersAreSound` |
| access logs | `AccessLogs` | `PaginationIsExact`, `PagesShowExactly`, `HasMoreIsExact` |
| upgrade runner | `Upgrade` | `StreamsAreSegments`, `StaysExactly`, `FinishDelivers` |
| store | `Store` | `RunKeepsUnique`, `JSONStore.ResolveRegistryAuth` |

`Text`, `Ordering` and `Paths` hold the library functions the source calls (package strings, strconv,
sort, filepath.Clean).

Objects that the source updates in place are classes (`JSONStore`, `Server`, `Live`, `Docker`,
`Reconciler`, `Table`, `Poller`, `Limiter`, `WAF`, `Runner`), and each method is proved against a
function or relation on its state; the theorems are about those functions and relations. What the
environment decides is explicit: `io` says whether a store call succeeds, `newId` and `hash` stand for
drawn ids and bcrypt, and every Docker reply is an arbitrary choice in `Engine.Client`, where a call
that reports a failure may or may not have taken effect. Concurrent code (poller against route
writes, firewall cache, upgrade runner) is a state machine whose steps are the locked sections, and
its theorems hold for every sequence of steps.

Conditions that a theorem needs:

- Plan and apply: the desired document is in the spelling the store keeps. Names and usernames are
  trimmed, registry prefixes are fixed points of the store's normaliser, mount modes are lower-case,
  mounts have no uid, gid or dirMode, sources contain no colon, and no bind source lies in the
  deployment's managed directory. The live state exports to a valid document, the managed base
  directory is absolute without a colon, and drawn ids are new. `fileMounts` never appear as a
  change, because the planner does not compare them.
- Reconciler: API writes come between passes, not inside one. A container exits by itself only as it
  starts or between passes.
- API runs: handlers are serialised; bcrypt output is recognised as a hash.
- Scanner: the clock does not run backwards, threshold and windows are positive.

Where comment and code differ, the model follows the code: the comment on StartAndReplace
(orchestrator/internal/docker/docker.go:286-290) promises that a failed start leaves the old container
intact, which the stop-first branch (lines 296-306) does not do; the contract separates the two paths.

Five properties hold only in part, and the model says exactly when:

- The plan, and with it the fingerprint that an apply compares, can depend on map order: for a document
  with two deployments on one domain, desired and live, the reported conflict does
  (`Build.SharedDomainChangesPlan`). For valid documents the plan is the same for every order exactly
  when no domain that a desired deployment wants and another live deployment that stays holds is
  shared by two live deployments (`Build.BuildIgnoresOrderExactly`).
- The executor's redeploy check lets a changed domain overwrite a secret stored in clear without a
  redeploy (`ApplyRedeploy.DomainChangeLosesSecret`, `ApplyRedeploy.MovingLosesApiKey`); when it says
  no, the container starts from the same values exactly when spelling, secrets, file mounts and users
  are already those that are written (`ApplyRedeploy.RedeployCheckExactly`).
- A request in which a mapping without host port precedes another mapping of the same container port
  is not stable under resubmission (`HostPorts.RepeatedContainerNotStable`); all others are, and only
  they (`HostPorts.ResubmitRequest`).
- That 2 * threshold - 1 suspicious requests of an address within one window always block it is true
  when requests are handled one after the other (`ScannerBursts.ServedBurstBlocks`). When they
  overlap, a query that finds an expired block restarts the count between two requests, and then it
  is true for all histories exactly for a zero window, a threshold of 1, or a threshold of 2 with a
  block longer than two windows; neither profile is such a configuration
  (`ScannerBursts.PlainBoundExactly`). `ScannerBursts.BurstBlocksExactly` gives the bound for every
  configuration: 15 requests for the strict profile and 33 for the standard one.
- If two registries shared an id, the duplicate-prefix check of an update could miss a clash
  (`Store.SharedIdBreaksUniqueness`); `Store.ReplaceKeepsUniqueExactly` gives the exact condition, and
  with unique ids it never happens (`Store.RunKeepsUnique`).

## Model

| member | source | states |
|---|---|---|
| `GitOps.PlanApplyReplan` | api/cmd/lotsen/config.go:48-161 | export, plan, apply with any failing calls, export and plan again as one program, with independent listings: the second plan lists exactly the actions whose failure was reported, for deployments, registries and the host |
| `Replan.ApplyConverges` | api/internal/configapply/apply.go:64-239 | for every valid desired document, live state and set of failing calls: the state left by the run exports to a valid document, failed creates, updates, deletes and host updates reappear unchanged in the second plan, and every other resource is a no-op or gone. A deployment reported as applied is Deploying without reason and error if it was created or its runtime differs from the desired one, and otherwise keeps status, reason and error; what was reported as failed has a cause in its environment |
| `Replan.FaultFreeApplySuffices` | api/internal/configapply/apply.go:64-239 | when no call fails, no action does, and the second plan has neither creates nor updates nor deletes |
| `Replan.AppliedStatus` | api/internal/configapply/apply.go:171-183 | a create reported as applied left a Deploying record; an update reported as applied left a Deploying record without reason and error exactly when the exported live entry and the desired one differ at runtime, and otherwise kept status, reason and error |
| `Replan.FailureHasCause` | api/internal/configapply/apply.go:84-239 | a failure is reported only if the store refuses the write, no id can be drawn, a password cannot be hashed or the stored registry id is blank |
| `Replan.ReexportValidates` | api/cmd/lotsen/config.go:293-384 | the state after a partly failed apply still passes the validation that export runs |
| `Replan.CtxIgnoresOrder` | api/internal/configapply/apply.go:77-84 | with unique names the executor's snapshot does not depend on the order of its listing |
| `Replan.DeploymentFate` | api/internal/configplan/plan.go:150-193 | for one deployment name: how its live entry changed follows from what was reported, and an applied write leaves no difference to the desired entry |
| `Replan.RegistryFate` | api/internal/configplan/plan.go:195-236 | the same for one registry prefix |
| `Replan.HostReplan` | api/internal/configplan/plan.go:238-257 | the host update is planned again exactly when it was reported as failed |
| `Replan.FateDecidesPlan` | api/internal/configplan/plan.go:150-236 | the fate of a name decides in which list of the second plan it is, with which changes |
| `ApplyRuns.ActionResult` | api/internal/configapply/apply.go:64-239 | at the end of a run, an applied action left its resource as desired or gone, with the status that its changes ask for; a failed one left it as it was and has a cause in its environment |
| `ApplyRuns.NoActionResult` | api/internal/configapply/apply.go:64-239 | a resource without an action is untouched by the whole run |
| `ApplyRuns.ActionsFit` | api/internal/configplan/plan.go:86-131 | every action of a plan fits the state it was planned for: creates name absent resources, updates and deletes present ones |
| `ApplyRuns.OneActionEach` | api/internal/configplan/plan.go:86-131 | no two actions of a plan touch the same resource |
| `ApplySteps.AnyStep` | api/internal/configapply/apply.go:64-239 | one action changes only its own resource, nothing when it fails, and keeps ids, names and prefixes unique |
| `ApplyFaults.FailureIsExcused` | api/internal/configapply/apply.go:84-239 | one action of a plan, run after others of the plan, fails only for a cause in its environment |
| `ApplySteps.RunStaysOnTheWay` | api/internal/configapply/apply.go:64-239 | after any prefix of the actions, untouched resources are as at the start and the store invariants hold |
| `ApplySteps.SettingIsGood` | api/cmd/lotsen/config.go:293-384 | a state whose export validates has unique deployment names and registry prefixes |
| `RoundTrip.DeploymentRoundTrip` | api/internal/configapply/apply.go:253-284 | a record written from a valid desired deployment exports to a valid deployment without any difference to the desired one |
| `RoundTrip.MountRoundTrip` | api/internal/configapply/apply.go:310-331 | writing a volume mount as a binding and exporting it gives the mount back |
| `RoundTrip.ManagedIsRecognised` | api/cmd/lotsen/config.go:482-503 | the path of a managed volume is recognised as that volume and no other |
| `RoundTrip.UsersRoundTrip` | api/cmd/lotsen/config.go:400-415 | basic-auth users survive hashing, storing and exporting up to placeholder passwords, which compare equal |
| `RoundTrip.EnvRoundTrip` | api/cmd/lotsen/config.go:417-432 | exported environment maps compare equal to the desired one, sensitive values as placeholders |
| `RoundTrip.SecurityRoundTrip` | api/internal/configapply/apply.go:361-373 | security settings survive storing and exporting |
| `RoundTrip.RegistryRoundTrip` | store/store.go:330-361 | a registry in store spelling is stored and exported without difference |
| `RoundTrip.HostRoundTrip` | api/internal/configapply/apply.go:385-406 | a host profile written from a desired host exports to a host without difference |
| `WrittenRecords.WrittenFields` | api/internal/configapply/apply.go:253-373 | field by field what an apply writes: trimmed texts, the environment and ports as given, managed mounts below the deployment's directory, hashed passwords, file mounts and security settings |
| `WrittenRecords.WrittenHost` | api/internal/configapply/apply.go:385-417 | the host profile carries the desired name, addresses and rules, and the defaults without a firewall section |
| `WrittenRecords.ExportHidesSecrets` | api/cmd/lotsen/config.go:386-538 | every exported sensitive variable, password and registry secret is a placeholder |
| `WrittenRecords.ExportShowsTheRest` | api/cmd/lotsen/config.go:293-480 | everything that is no secret is exported as it is stored |
| `Apply.Live.Execute` | api/internal/configapply/apply.go:64-239 | nothing happens if a listing fails; otherwise the ten loops run the actions of the plan in the fixed order, the outcomes report each one, and the counters equal the number of outcomes of each status |
| `Apply.Live.RunSection` | api/internal/configapply/apply.go:84-126 | one loop appends one outcome per change and leaves the state that running its actions gives |
| `Apply.ActionsAreStaged` | api/internal/configapply/apply.go:84-239 | registries are written before deployments, deployments before the host, and deletions come last, deployments before registries |
| `ApplyRedeploy.RedeployCheckExactly` | api/internal/configapply/apply.go:171-183 | when the redeploy check says no, the written record starts the same container exactly when the spelling agrees, no secret is replaced by a placeholder, and file mounts and users are already those stored |
| `ApplyRedeploy.RedeployIsComparison` | api/internal/configapply/apply.go:375-383 | a redeploy is asked for exactly when one of the planner's six runtime comparisons fails |
| `ApplyRedeploy.DomainChangeLosesSecret` | api/internal/configapply/apply.go:171-183 | for every sensitive variable stored in clear, a change of the domain alone overwrites it with its placeholder and the record stays Healthy |
| `ApplyRedeploy.MovingLosesApiKey` | api/internal/configapply/apply.go:171-183 | one such input |
| `Plan.PlanPartitions` | api/internal/configplan/plan.go:150-236 | every desired or live name is in exactly one of create, update, delete and noop, and no other name is in any |
| `Plan.PlanMembers` | api/internal/configplan/plan.go:150-236 | membership and change list of each of the four lists, in both directions |
| `Plan.RunPlanActions` | api/internal/configplan/plan.go:150-236 | the two planning loops over sorted names compute the four lists; drift is updates then deletes, destructive is deletes |
| `Differences.DeploymentDiffExactly` | api/internal/configplan/plan.go:299-331 | each of the nine fields is listed exactly when its normal forms differ (trimmed texts, lists and mounts, secrets up to placeholders, equal proxy port and visibility), and nothing else is |
| `Differences.RegistryDiffExactly` | api/internal/configplan/plan.go:333-344 | the password is listed exactly when the trimmed values differ and not both are placeholders, the username exactly when the trimmed values differ |
| `Differences.HostDiffExactly` | api/internal/configplan/plan.go:346-608 | name, access mode and firewall are listed exactly when the trimmed names, the kinds of access, or enforcement and the non-blank trimmed addresses and rules differ |
| `Plan.OwnersIgnoreOrderExactly` | api/internal/configplan/plan.go:260-269 | the internal map of domain owners is the same for all map orders exactly when the live non-blank domains are distinct |
| `Plan.OwnersIgnoreOrder` | api/internal/configplan/plan.go:260-269 | with distinct live domains the owner map does not depend on the map order |
| `Plan.ActionsAddUp` | api/internal/configplan/plan.go:150-236 | the four lists together count every desired or live name once |
| `Plan.UnambiguousIgnoresOrder` | api/internal/configplan/plan.go:259-297 | if no real conflict is about a domain shared by two live deployments, the reported conflicts are the same for all map orders |
| `Plan.AmbiguousDependsOnOrder` | api/internal/configplan/plan.go:259-297 | otherwise there are two orders, one in which the conflict is reported and one in which it is not |
| `Build.RunBuild` | api/internal/configplan/plan.go:86-148 | Build fails exactly when a spec is missing, and otherwise returns the plan of the canonical documents for some map order, its summary counts and the digest of both |
| `Build.SummaryAddsUp` | api/internal/configplan/plan.go:114-124 | the counts are conserved: every desired or live resource and the host is counted once, drift is updates plus deletes, destructive is deletes |
| `Plan.ConflictsExactly` | api/internal/configplan/plan.go:259-297 | exactly those conflicts are reported in which a desired deployment wants the domain of another deployment that is live and stays, and that one is the first on the domain in map order |
| `Build.DeploymentConflicts` | api/internal/configplan/plan.go:259-297 | the loops over live and desired deployments compute the sorted conflict list for some map order |
| `Build.BuildIgnoresOrderExactly` | api/internal/configplan/plan.go:86-148 | for valid documents the plan is the same for every order of deployments, registries, users and map keys exactly when no real conflict is about a domain shared by two live deployments |
| `Build.BuildIgnoresOrder` | api/internal/configplan/plan.go:86-148 | the sufficient half, for two given reorderings and map orders |
| `Build.SharedDomainChangesPlan` | api/internal/configplan/plan.go:259-297 | a valid document, desired and live, for which two map orders give plans with different conflicts |
| `Build.ReorderedCanonical` | api/internal/configv1/config.go:143-211 | reordered documents have the same canonical form |
| `ConfigV1.Validate` | api/internal/configv1/config.go:213-461 | the loops with their seen-sets report no error exactly for documents that satisfy the declarative rules, including unique names and prefixes |
| `ConfigV1.ValidateDeployments` | api/internal/configv1/config.go:244-255 | names are non-blank and unique, although blank ones are not remembered, and every deployment is valid |
| `ConfigV1.ValidateDeployment` | api/internal/configv1/config.go:256-412 | the checks on one deployment are the conjunction of its parts |
| `ConfigV1.ValidatePorts` | api/internal/configv1/config.go:265-283 | every port parses and the proxy port is the container port of a TCP mapping |
| `ConfigV1.ValidateEnv` | api/internal/configv1/config.go:285-293 | keys are non-blank and sensitive values are placeholders |
| `ConfigV1.ValidateMount` | api/internal/configv1/config.go:295-332 | the branches for managed and bind mounts decide the mount rules |
| `ConfigV1.ValidateFileMounts` | api/internal/configv1/config.go:334-370 | file mounts are valid with distinct sources and targets, although invalid ones are not remembered |
| `ConfigV1.ValidateUsers` | api/internal/configv1/config.go:372-391 | users are not empty, with non-blank distinct names and placeholder passwords |
| `ConfigV1.ValidateRegistries` | api/internal/configv1/config.go:414-431 | registries are valid with distinct prefixes |
| `ConfigV1.ValidateHost` | api/internal/configv1/config.go:433-454 | access mode, WAF mode and addresses of the host |
| `Export.ExportDocument` | api/cmd/lotsen/config.go:293-384 | export succeeds exactly when the exported spec is valid, and lists every deployment, every registry and the host |
| `Export.PlaceholderForIsPlaceholder` | api/cmd/lotsen/config.go:526-538 | every generated placeholder has the form that the validator and the planner accept |
| `Paths.CleanIdempotent` | api/cmd/lotsen/config.go:482-503 | cleaning a cleaned path changes nothing and keeps it absolute or relative |
| `Paths.JoinBelow` | api/internal/configapply/apply.go:310-331 | joining plain elements below a clean absolute directory appends exactly these elements |
| `Paths.CleanResolves` | api/cmd/lotsen/config.go:482-503 | below a clean absolute directory, a plain name followed by "..", a "." and a repeated slash lead back to the directory |
| `ReconcilerFixpoint.TwoPassesConverge` | orchestrator/internal/reconciler/reconciler.go:79-220 | from any world, two passes in which every call succeeds, the second after all pending retry times, reach a world that a third pass leaves unchanged; no deployment is Deploying, none has two containers, each Healthy one has one that runs, and no container is orphaned. Every deployment is where its record sends it: what was Deploying or transiently Failed is Healthy, what was Deploying on the dashboard's domain is Failed as reserved (if the domain's name does not make that message look like an outage), Idle stays Idle, and other failures stay as they were |
| `ReconcilerFixpoint.DeploysWhenWell` | orchestrator/internal/reconciler/reconciler.go:135-164 | in a pass without faults a Deploying deployment becomes Healthy with the ports of a container that was started for it and runs, unless its domain is the dashboard's; then it is Failed as reserved and no container is made |
| `ReconcilerFixpoint.FailedOnce` | orchestrator/internal/reconciler/reconciler.go:171-204 | in a pass without faults a transiently Failed deployment becomes Healthy or waits for its retry time, and any other failure stays |
| `ReconcilerTurns.DeployingPass` | orchestrator/internal/reconciler/reconciler.go:135-164 | whatever fails, a full pass launches every Deploying deployment unless its domain is reserved: a success stores Healthy with the launched ports and no error, a refusal stores Failed with the reported error, each with the reason for a fresh start or a replacement |
| `ReconcilerTurns.FailedPass` | orchestrator/internal/reconciler/reconciler.go:171-204 | a full pass leaves a Failed deployment alone if the failure is not transient or the backoff has not passed, records a recovery if one of its containers runs, and otherwise launches it and keeps count |
| `ReconcilerTurns.QuietPass` | orchestrator/internal/reconciler/reconciler.go:166-175 | a full pass keeps Idle records and Healthy ones with a running container, and marks other Healthy ones Failed with the way their primary exited; it makes no container for any of them |
| `ReconcilerFixpoint.PassTidies` | orchestrator/internal/reconciler/reconciler.go:118-206 | after one fault-free pass nothing is Deploying and every deployment has at most one container, running if Healthy |
| `ReconcilerFixpoint.PassSettles` | orchestrator/internal/reconciler/reconciler.go:118-206 | after the next one, what is Failed is not transient |
| `ReconcilerFixpoint.PassLeavesNoOrphan` | orchestrator/internal/reconciler/reconciler.go:209-217 | after a fault-free pass every container belongs to a stored deployment |
| `ReconcilerFixpoint.PassFixed` | orchestrator/internal/reconciler/reconciler.go:79-220 | a settled world is a fixed point of every pass that sees the containers, whatever else fails |
| `ReconcilerExamples.WellPassExists` | orchestrator/internal/reconciler/reconciler.go:79-220 | a fault-free pass exists from every world |
| `ReconcilerFixpoint.HealsAreSpaced` | orchestrator/internal/reconciler/reconciler.go:248-283 | over any run of passes from a new reconciler, two consecutive heal attempts without clear or reconnect between them are at least min(15s * 2^n, 120s) apart, n being the failures counted before |
| `ReconcilerFixpoint.AttemptsCountFailures` | orchestrator/internal/reconciler/reconciler.go:266-283 | the stored attempt counter is the number of failed heal attempts since the entry was last absent |
| `ReconcilerFixpoint.RoundRetry` | orchestrator/internal/reconciler/reconciler.go:248-289 | a pass keeps a retry entry, forgets it, or advances it by one failed heal |
| `ReconcilerRuns.HealthyIsEarned` | orchestrator/internal/reconciler/reconciler.go:90-206 | whatever fails, a deployment becomes Healthy only if one of its containers was listed running or was started in this pass |
| `ReconcilerRuns.HealthyIsLost` | orchestrator/internal/reconciler/reconciler.go:90-206 | a Healthy deployment becomes Failed exactly if the ping failed or none of its listed containers runs, and the store takes the write; otherwise it stays Healthy |
| `ReconcilerRuns.PassKeepsARunner` | orchestrator/internal/reconciler/reconciler.go:118-217 | whatever fails, a stored deployment with a running container still has one after the pass, unless it was redeployed on the stop-first path |
| `ReconcilerRuns.SweepSparesPrimary` | orchestrator/internal/reconciler/reconciler.go:124-133 | if a container of the deployment runs, the primary runs and the sweep of stale containers leaves it as it is |
| `ReconcilerRuns.TurnOf` | orchestrator/internal/reconciler/reconciler.go:118-217 | for every stored deployment, a full pass is its own turn: nothing before or after that turn, orphan sweep included, touches its record, retry entry or containers |
| `ReconcilerRuns.StepFrame` | orchestrator/internal/reconciler/reconciler.go:118-206 | one deployment's turn changes nothing of another deployment |
| `ReconcilerRuns.MarkedDownAt` | orchestrator/internal/reconciler/reconciler.go:90-98 | after a failed ping exactly the active deployments whose write was taken are Failed with the reason and message of an unreachable daemon, and every other record is as it was |
| `Reconciler.Reconciler.Reconcile` | orchestrator/internal/reconciler/reconciler.go:79-220 | every execution is one of the passes that the theorems quantify over, for every outcome of store and Docker calls; what a pass does to each record, whatever its status, is `ReconcilerTurns.DeployingPass`, `FailedPass` and `QuietPass` |
| `Reconciler.Reconciler.RunPass` | orchestrator/internal/reconciler/reconciler.go:105-217 | grouping, the turns in listed order and the orphan sweep |
| `Reconciler.Reconciler.Handle` | orchestrator/internal/reconciler/reconciler.go:118-206 | one turn: retry state cleared, stale containers swept, then the decided action carried out |
| `Reconciler.Reconciler.Heal` | orchestrator/internal/reconciler/reconciler.go:172-204 | the branches for a Failed deployment |
| `Reconciler.Reconciler.Converge` | orchestrator/internal/reconciler/reconciler.go:135-170 | the branches for Idle, Deploying and Healthy deployments, reserved domain included; what they store is `ReconcilerTurns.DeployingPass` and `QuietPass` |
| `Reconciler.Reconciler.LaunchContainer` | orchestrator/internal/reconciler/reconciler.go:144-204 | start or replace, then ports, status, reason, error and retry entry as the result says |
| `Reconciler.Reconciler.SweepStale` | orchestrator/internal/reconciler/reconciler.go:126-133 | only stale candidates are stopped or removed; those reported removed are gone |
| `Reconciler.Reconciler.SweepOrphans` | orchestrator/internal/reconciler/reconciler.go:111-217 | only containers of unknown deployments are stopped or removed |
| `Reconciler.Reconciler.MarkUnavailable` | orchestrator/internal/reconciler/reconciler.go:90-98 | the marking loop, with store writes that may fail |
| `Reconciler.Reconciler.UpdateStatus` | orchestrator/internal/reconciler/reconciler.go:316-332 | a status patch sets status, reason, error and given ports and nothing else, or nothing when it fails |
| `Reconciler.Reconciler.RecordReachability` | orchestrator/internal/reconciler/reconciler.go:233-246 | a reconnect is reported exactly for reachable after known unreachable |
| `Reconciler.Reconciler.RecordRetryFailure` | orchestrator/internal/reconciler/reconciler.go:266-283 | one more attempt, and the next one not before now plus the delay |
| `Reconciler.BackoffDelay` | orchestrator/internal/reconciler/reconciler.go:266-283 | the doubling loop computes min(15s * 2^attempts, 120s) for every attempt count |
| `Reconciler.OutagesAreTransient` | orchestrator/internal/reconciler/reconciler.go:222-231 | losing the daemon, a failed ping and a vanished container all count as transient |
| `Selection.PrimaryIsBest` | orchestrator/internal/reconciler/reconciler.go:348-380 | the primary is a candidate that beats every other by score and then by id |
| `Selection.PrimaryIsPreferred` | orchestrator/internal/reconciler/reconciler.go:348-380 | without scores: the primary is preferred to every other candidate because it runs, else because it has the deployment's name, else because its id is smaller |
| `Selection.PrimaryRuns` | orchestrator/internal/reconciler/reconciler.go:366-380 | the primary runs exactly when some candidate runs |
| `Selection.PrimaryIgnoresOrder` | orchestrator/internal/reconciler/reconciler.go:348-364 | the primary and the order of the stale ones do not depend on the listing order |
| `Selection.CandidatesAre` | orchestrator/internal/reconciler/reconciler.go:105-109 | the candidates of a deployment are its listed containers |
| `Docker.Docker.StartAndReplace` | orchestrator/internal/docker/docker.go:291-386 | for every schedule of failures: stop-first is taken exactly when the old container was reported to hold a port asked for by number; otherwise no call touches the old container before a new one was seen running and the proxy acknowledged a route to one of its ports, a refusal leaves the old one untouched, and a success is the recorded sequence pull, create, start, inspect, route, then stop and remove of the old container and rename of the new one. If every reply is a success and a port can be routed, the call succeeds, the old container is gone and the new one runs under the deployment's name |
| `Docker.Docker.StartNext` | orchestrator/internal/docker/docker.go:308-368 | the start half never touches or asks about the old container, and succeeds only with a complete handover |
| `Docker.Docker.Verify` | orchestrator/internal/docker/docker.go:346-373 | from the started container to the acknowledged swap; every error path concerns only the new container |
| `Docker.Docker.StopThenStart` | orchestrator/internal/docker/docker.go:300-305 | on the stop-first path a success leaves the old container gone and a new one in place |
| `Docker.Docker.TearDown` | orchestrator/internal/docker/docker.go:375-384 | the calls are stop and remove of the old container and rename of the new one, in this order; if their replies are successes, the old one is gone and the new one has the deployment's name; nothing else changes and the new one keeps running |
| `Docker.Docker.Start` | orchestrator/internal/docker/docker.go:104-158 | the calls are ping, pull, create, start and inspect; nothing but one new container of the deployment may appear, success leaves it running under the deployment's name with the reported ports, and a refusal has a failed reply or unusable ports as its cause |
| `Docker.Docker.StopAndRemove` | orchestrator/internal/docker/docker.go:263-284 | only this container is stopped or removed, and success means it is gone |
| `Docker.Docker.ShouldStopBeforeStart` | orchestrator/internal/docker/docker.go:575-637 | true exactly when an explicit desired host port and protocol is one that the inspected container holds |
| `Docker.HeldKeys` | orchestrator/internal/docker/docker.go:594-604 | the keys a container holds: the first non-blank host port of each container port |
| `Docker.ExplicitKeys` | orchestrator/internal/docker/docker.go:615-637 | the keys asked for by number |
| `Docker.KeysArePairs` | orchestrator/internal/docker/docker.go:594-611 | equal keys are equal host ports and equal protocols |
| `Docker.Docker.ResolvedPorts` | orchestrator/internal/docker/docker.go:538-573 | the runtime ports are the first non-blank bindings in key order |
| `Docker.Docker.SwapProxyRoute` | orchestrator/internal/docker/docker.go:644-677 | done means that the proxy acknowledged a route to a usable port, or that there is no domain |
| `Docker.UpstreamFromRuntimePorts` | orchestrator/internal/docker/docker.go:679-702 | the first usable binding, and "" exactly when there is none |
| `Docker.Docker.ListManagedContainers` | orchestrator/internal/docker/docker.go:161-199 | every container once, with its state; exit details only for stopped ones whose inspection worked |
| `AccessLogs.PaginationIsExact` | api/internal/api/handler_load_balancer_access_logs.go:156-221 | following next from no cursor with any positive limits yields exactly the newest-first filtered sequence, without gap or repeat |
| `AccessLogs.PagesShowExactly` | api/internal/api/handler_load_balancer_access_logs.go:156-237 | the pages together hold an entry exactly when a line of some file decodes to it and every filter that is set admits it: equal method and status, a part of the host and of the address |
| `AccessLogs.HasMoreIsExact` | api/internal/api/handler_load_balancer_access_logs.go:239-276 | hasMore holds exactly when there is a next page and it is not empty |
| `AccessLogs.CursorAdvances` | api/internal/api/handler_load_balancer_access_logs.go:156-221 | each cursor leaves strictly fewer lines, so following terminates |
| `AccessLogs.PositionAfterSplits` | api/internal/api/handler_load_balancer_access_logs.go:173-214 | a page ends where exactly the requested number of matches was read, and what remains there is what follows them |
| `AccessLogs.ReadPage` | api/internal/api/handler_load_balancer_access_logs.go:156-221 | the nested loops return the page of the specification, or a read error only when a file from the start on is unreadable |
| `AccessLogs.HasMore` | api/internal/api/handler_load_balancer_access_logs.go:239-276 | the look-ahead loops tell whether a match remains |
| `AccessLogs.ListFiles` | api/internal/api/handler_load_balancer_access_logs.go:278-301 | log files with distinct names, newest first |
| `ApiRuns.PortsNeverClash` | api/internal/api/handler.go:550-629 | over every run of create, update, patch, delete and status calls from an empty store, all host port and protocol pairs are distinct within and across deployments |
| `ApiRuns.UpstreamsAreOwn` | proxy/internal/poller/poller.go:163-223 | over every run, a deployment with a domain is routed to one of its own TCP host ports, and two deployments never share an upstream |
| `ApiRuns.RoutedToItself` | api/internal/api/handler.go:851-874 | a record that passed the proxy-port check gets a poller upstream that is one of its own TCP host ports |
| `ApiRuns.UpdateRedeploySound` | api/internal/api/handler.go:631-639 | an update either marks the record Deploying or leaves everything its container was started from as it was |
| `ApiRuns.PatchRedeploySound` | api/internal/api/handler.go:641-664 | the same for a patch |
| `ApiWrites.CreateCarries` | api/internal/api/handler_create_deployment.go:12-118 | a create is accepted exactly when the request passes the checks, its ports can be given, the name is free and every call succeeds; it adds exactly the record that carries each field of the request, Deploying without reason and error; otherwise nothing changes |
| `ApiWrites.UpdateCarries` | api/internal/api/handler_update_deployment.go:12-132 | an update that passes the checks replaces its record, and no other, by the one that carries each field of the request, unless that is the one stored; it is Deploying exactly when the request changes what the container was started from, and otherwise keeps its status |
| `ApiWrites.PatchMerges` | api/internal/api/handler_patch_deployment.go:12-147 | a patch is accepted exactly when it passes the checks; each field of the new record is the given value, converted, and otherwise the old one; status, reason and error are kept unless the patch changes what the container was started from |
| `ApiWrites.SanitizeExactly` | api/internal/api/handler.go:666-696 | users are accepted exactly when no name or password is blank and every password is a hash or can be hashed; they are stored in order, trimmed and hashed |
| `ApiWrites.FilesAccepted` | api/internal/api/handler_file_mounts.go:47-109 | file mounts are accepted exactly when each has a managed name and an absolute target, no two share a source or a cleaned target, and the size and disk checks pass |
| `ApiWrites.OthersStay` | api/internal/api/handler_delete_deployment.go:10-23 | a delete removes exactly the named record; a status report changes only status, reason and error of its record; a missing id is reported |
| `ApiRuns.RunKeepsInv` | api/internal/api/handler_update_deployment.go:12-132 | the store invariant (stored ports bound and disjoint, proxy port accepted, clean targets, hashed passwords) holds after every run |
| `ApiRuns.CreateKeepsInv` | api/internal/api/handler_create_deployment.go:12-118 | a create call keeps the invariant |
| `ApiRuns.UpdateKeepsInv` | api/internal/api/handler_update_deployment.go:12-132 | an update call keeps the invariant |
| `ApiRuns.PatchKeepsInv` | api/internal/api/handler_patch_deployment.go:12-147 | a patch call keeps the invariant |
| `Api.Server.CreateDeployment` | api/internal/api/handler_create_deployment.go:12-118 | the handler answers and stores what the create function of the model says, including failures of id drawing, listing and writing; what that function stores is `ApiWrites.CreateCarries` |
| `Api.Server.UpdateDeployment` | api/internal/api/handler_update_deployment.go:12-132 | the same for update, including the unchanged request and failing reads, listings and writes; what that function stores is `ApiWrites.UpdateCarries` |
| `Api.Server.PatchDeployment` | api/internal/api/handler_patch_deployment.go:12-147 | the same for patch, with effective values for absent fields; the store is listed only when ports are given; what that function stores is `ApiWrites.PatchMerges` |
| `Api.Server.SanitizeAndHash` | api/internal/api/handler.go:666-696 | users are trimmed, blanks rejected and passwords hashed unless they already are hashes |
| `HostPorts.AssignmentIsFree` | api/internal/api/handler.go:550-619 | an assignment answers each request with its container port, keeps named host ports, and all ports are valid, free and distinct |
| `HostPorts.RejectionHasCause` | api/internal/api/handler.go:457-629 | a request is malformed exactly when one of its mappings does not parse; any other rejection is about its first mapping that cannot be served: the host port it names is held by another deployment or given to an earlier mapping, or it names none and the whole range is |
| `HostPorts.ResubmitRequest` | api/internal/api/handler.go:550-619 | with the others unchanged, an accepted request is answered with the same bindings again exactly when no mapping without host port precedes another mapping of the same container port and protocol |
| `HostPorts.ResubmitDistinct` | api/internal/api/handler.go:550-619 | in particular when the container port and protocol pairs are distinct |
| `HostPorts.ResubmitVerbatim` | api/internal/api/handler.go:550-619 | submitting the assigned bindings verbatim returns them |
| `HostPorts.RepeatedContainerNotStable` | api/internal/api/handler.go:550-619 | with no other deployment, the request ["80", "8080:80"] is accepted and, submitted again for the bindings it was given, rejected with a conflict on 8080 |
| `HostPorts.Allocate` | api/internal/api/handler.go:621-629 | the least free port of the range, and none exactly when all are taken for that protocol |
| `HostPorts.RunAssignHostPorts` | api/internal/api/handler.go:550-619 | the loops over requests with used and existing maps compute the assignment of the specification, conflicts and exhaustion included |
| `HostPorts.RunAllocate` | api/internal/api/handler.go:621-629 | the search loop returns the least free port |
| `HostPorts.RunParseSpecs` | api/internal/api/handler.go:457-487 | parsing drops repeated mappings and fails on the first that does not parse |
| `Ports.PrintParse` | api/internal/api/handler.go:449-529 | printing a bound mapping and parsing it back is the identity for the API, config and poller parsers |
| `Ports.ParsersAgree` | api/internal/configv1/config.go:469-518 | the API and the config parser agree on every string |
| `Ports.BindingInjective` | api/internal/api/handler.go:449-455 | different mappings print differently |
| `Ports.AcceptedIsRoutable` | proxy/internal/poller/poller.go:163-223 | an accepted proxy port selects one of the deployment's own TCP mappings |
| `Ports.UpstreamExactly` | proxy/internal/poller/poller.go:163-193 | the upstream is the first TCP mapping of the proxy port; without one the first TCP mapping of a web port (80, 443, 3000, 8000, 8080), otherwise the first TCP mapping, and empty exactly when there is none |
| `Ports.ValidateProxyPortSelection` | api/internal/api/handler.go:851-874 | accepted exactly when there is no domain and no proxy port, or some TCP mapping serves it |
| `Routing.PollerRefinesRebuild` | proxy/internal/poller/poller.go:71-131 | after any interleaving of sync steps, setRoute and SetStatic, every domain not written by setRoute since the poller last touched it has the dynamic route of a rebuild from the last listing (during a sync: of the old or the new one), and static routes win |
| `Routing.LookupServes` | proxy/internal/routing/table.go:47-55 | outside a sync, a domain without static route that was not written since is answered with the upstream, visibility, users and security settings of the last listed deployment that asks for it, and with no route exactly when none does |
| `Routing.SetRouteServes` | proxy/internal/handler/handler.go:537-553 | a request with both fields gives the normalised domain a private route without users or settings, behind a static one, and no other domain another answer; a request without one changes nothing |
| `Routing.NextKeepsInv` | proxy/internal/poller/poller.go:71-131 | every single step keeps that agreement |
| `Routing.SnapshotIsRebuild` | proxy/internal/poller/poller.go:80-101 | the poller's snapshot has exactly the routes of a rebuild |
| `Routing.Poller.Sync` | proxy/internal/poller/poller.go:71-131 | the loops of one sync, with any number of setRoute requests between their table calls, are a run of steps that ends with the new listing; a failed listing changes nothing |
| `Routing.Poller.SetChanged` | proxy/internal/poller/poller.go:104-121 | exactly the changed domains are set |
| `Routing.Poller.DeleteGone` | proxy/internal/poller/poller.go:124-128 | exactly the vanished domains are deleted |
| `Routing.TakeSnapshot` | proxy/internal/poller/poller.go:80-101 | the snapshot loop skips blank domains and unroutable deployments, the last deployment of a domain winning |
| `Routing.HandleSetRoute` | proxy/internal/handler/handler.go:537-553 | 400 without change for a blank field, otherwise 204 and a private route without auth |
| `Routing.Table.Get` | proxy/internal/routing/table.go:47-55 | the static route if there is one, else the dynamic one |
| `Routing.Table.Set` | proxy/internal/routing/table.go:33-37 | only the dynamic route of the domain changes |
| `Routing.Table.Delete` | proxy/internal/routing/table.go:58-62 | only the dynamic route of the domain is removed |
| `Scanner.QuietIsNeverBlocked` | proxy/internal/handler/handler.go:691-732 | an address with fewer than threshold suspicious requests in every closed window is never reported blocked |
| `Scanner.BlockHolds` | proxy/internal/handler/handler.go:691-732 | once blocked at t, an address is reported blocked at every time before t + blockFor, whatever events come between |
| `Scanner.BlockHasCause` | proxy/internal/handler/handler.go:691-732 | a reported block was set by an earlier event that closed a window with threshold suspicious requests, and has not expired |
| `Scanner.BlockNeedsThreshold` | proxy/internal/handler/handler.go:711-732 | an event that sets a block closes a window with at least threshold suspicious requests |
| `ScannerBursts.FirstBurstBlocks` | proxy/internal/handler/handler.go:711-732 | the request that brings the window that opens with an address's first suspicious request to the threshold blocks it |
| `ScannerBursts.ServedBurstBlocks` | proxy/internal/handler/handler.go:271-298 | over every history in which each suspicious request directly follows its own query, 2 * threshold - 1 of them within one closed window contain a blocking one |
| `ScannerBursts.BurstBlocksExactly` | proxy/internal/handler/handler.go:691-732 | over all interleavings, a number of suspicious requests within one closed window always contains a blocking one exactly when it reaches 2 * threshold - 1 plus the slack of the configuration |
| `ScannerBursts.SlackIsNeeded` | proxy/internal/handler/handler.go:691-732 | for every configuration a history with one request less and no block in the interval |
| `ScannerBursts.PlainBoundExactly` | proxy/internal/handler/handler.go:676-689 | for which configurations 2 * threshold - 1 is enough in every interleaving, and the bounds of the two profiles |
| `Scanner.EntriesFit` | proxy/internal/handler/handler.go:691-732 | over every history counts stay below the threshold and each entry agrees with the events it stands for |
| `Scanner.Limiter.IsBlocked` | proxy/internal/handler/handler.go:691-709 | the answer, and an expired block restarts the window; entries as a function of the old ones |
| `Scanner.Limiter.RecordSuspicious` | proxy/internal/handler/handler.go:711-732 | the new window, count or block, as a function of the old entries; that it does block is `ScannerBursts.FirstBurstBlocks` and `BurstBlocksExactly` |
| `Scanner.Limiter.Snapshot` | proxy/internal/handler/handler.go:746-778 | the counters, and exactly the addresses that are blocked now with their ends, later ends first and then by address |
| `Waf.AnswersAreSound` | proxy/internal/middleware/waf.go:131-163 | in every interleaving of calls an answer is built from exactly the text of its normalised rules, and requests in one mode that agree on normalised rules, none included, get the same instance |
| `Waf.HeaderExactly` | proxy/internal/middleware/waf.go:165-192 | the text switches blocking on exactly in enforcement mode, and only detects in every other mode |
| `Waf.CacheOnlyGrows` | proxy/internal/middleware/waf.go:131-163 | a cached entry is never replaced or removed |
| `Waf.KeyDeterminesText` | proxy/internal/middleware/waf.go:142-183 | the cache key determines the directive text, even when rules contain newlines |
| `Waf.KeysAreTexts` | proxy/internal/middleware/waf.go:142-183 | in one mode, keys are equal exactly when texts are |
| `Waf.ReorderedOrPadded` | proxy/internal/middleware/waf.go:194-205 | permuting rules or inserting a blank one anywhere gives the same normalised rules |
| `Waf.NormalizeIgnoresOrder` | proxy/internal/middleware/waf.go:194-205 | only how often each non-blank trimmed rule occurs matters |
| `Waf.NormalizeIdempotent` | proxy/internal/middleware/waf.go:165-205 | normalising twice, as the builder does, changes nothing |
| `Waf.WAF.WafForRules` | proxy/internal/middleware/waf.go:131-163 | the code path, with any number of other calls installing entries whenever the lock is free: the answer has the right text and is the cached or the base instance |
| `Waf.WAF.BuildInstance` | proxy/internal/middleware/waf.go:165-183 | the builder loop writes the directive text |
| `Waf.RunNormalizeRules` | proxy/internal/middleware/waf.go:194-205 | the loop trims, drops blanks and sorts |
| `Upgrade.StreamsAreSegments` | api/internal/upgrade/runner.go:63-200 | in every interleaving no channel is closed twice or sent to after closing, nobody is subscribed unless an upgrade runs, at most one runs, and what a subscriber read is a gap-free piece of the log from its subscription |
| `Upgrade.FinishDelivers` | api/internal/upgrade/runner.go:154-200 | a subscriber that stays to the end holds every line since it subscribed, and its channel is closed |
| `Upgrade.StaysExactly` | api/internal/upgrade/runner.go:132-200 | a subscriber leaves exactly when it unsubscribes, the upgrade ends, or a line is sent while 32 wait for it; until then it gets every line that is sent, and it keeps what it has |
| `Upgrade.StartsAndJoins` | api/internal/upgrade/runner.go:63-130 | a start is taken exactly when no upgrade runs, a subscription joins exactly when one does, and a reader takes the line that waited longest |
| `Upgrade.NextKeepsInv` | api/internal/upgrade/runner.go:63-200 | every locked section keeps ownership, streams and channel discipline |
| `Upgrade.BroadcastStep` | api/internal/upgrade/runner.go:179-190 | a broadcast extends the streams that have room and closes the others |
| `Upgrade.Runner.SendAll` | api/internal/upgrade/runner.go:179-190 | the broadcast loop never sends to or closes a closed channel and reaches the specified state |
| `Upgrade.Runner.End` | api/internal/upgrade/runner.go:192-200 | finish closes every subscriber's channel once and leaves no subscriber |
| `Upgrade.Runner.AddSubscriber` | api/internal/upgrade/runner.go:122-130 | a subscription succeeds exactly while an upgrade runs and gets a new id |
| `Upgrade.Runner.RemoveSubscriber` | api/internal/upgrade/runner.go:132-142 | unsubscribing closes the channel at most once, however often it is called |
| `Upgrade.Runner.Begin` | api/internal/upgrade/runner.go:63-70 | a second start is refused while one runs |
| `Store.RunKeepsUnique` | store/store.go:299-432 | registry prefixes and ids stay unique over every run of registry and deployment operations |
| `Store.LongestMatchIgnoresOrder` | store/store.go:434-471 | the longest matching registry is the same whatever the stored order |
| `Store.MatchesExactly` | store/store.go:511-520 | a prefix matches itself and what continues it after "/", ":" or "@", and nothing else |
| `Store.PrefixSpellings` | store/store.go:499-505 | a registry prefix may be given with either scheme and a final slash; all spellings are stored alike |
| `Store.ReplaceKeepsUniqueExactly` | store/store.go:363-411 | an accepted update keeps prefixes unique exactly when no entry that shares the id holds the new prefix |
| `Store.SharedIdBreaksUniqueness` | store/store.go:363-411 | two creates with one id and a rename of it lead from the empty store to two entries with one prefix |
| `Store.JSONStore.ResolveRegistryAuth` | store/store.go:434-520 | the first of the longest separator-bounded matches, none exactly when nothing matches; with unique prefixes every other match is strictly shorter |
| `Store.JSONStore.Create` | store/store.go:625-643 | a new record unless its name is taken; nothing changes on failure |
| `Store.JSONStore.Update` | store/store.go:647-663 | a present record is replaced, an absent one is an error; nothing changes on failure |
| `Store.JSONStore.Patch` | store/store.go:669-728 | the set fields are merged and the others kept; nothing changes on failure |
| `Store.JSONStore.ReplaceRegistry` | store/store.go:363-411 | the last entry with the id is replaced, an empty secret keeps the old one, and a prefix of another id is refused |
| `Store.JSONStore.InsertRegistry` | store/store.go:330-361 | an entry is appended unless a field is empty or the prefix is taken |
| `Store.JSONStore.DeleteRegistry` | store/store.go:413-432 | the first entry with the id is removed, an absent one is an error |

## Left out

- Dashboard, website, CLI setup and downloads: user interface and I/O only.
- File locking, temporary files, rename, JSON, SQLite and the HTTP layer: a store call is one atomic step that may fail, and JSON is an inverse pair.
- JWT, WebAuthn, bcrypt, AES-GCM, HMAC and SHA-256: functions without properties; secrets are kept in clear.
- Coraza, net.ParseCIDR, nat.ParsePortSpecs and the reverse proxy: libraries, given as parameters or by the text they are built from.
- Unicode: case mapping is the ASCII one, and strings are sequences of scalar values rather than bytes.
- 64-bit overflow in Atoi: the callers reject values above 65535 anyway.
- Metadata of configuration documents, and decoding errors of YAML or JSON.
- Creation, ownership and permissions of managed files and volumes on disk: only the path-to-binding mapping is modelled, and the API's disk checks are a parameter.
- Deployment-name uniqueness as an invariant of the store: Update does not check names (store/store.go:647-663).
- The orchestrator's write-back of runtime ports is not part of the port-disjointness runs: it drops the protocol (orchestrator/internal/docker/docker.go:567).
- An API write in the middle of a reconciler pass, which the closing patch can overwrite (orchestrator/internal/reconciler/reconciler.go:323-332).
- End-to-end absence of downtime across API, poller and orchestrator: the poller may follow new store ports before the new container exists.
- Image pulls and registry authentication inside a launch are one call that may fail; the pull-skipping rule for pinned tags is not modelled.
- Status notifications to the API, heartbeats, host metrics, container statistics, system status and version checks: plumbing.
- AccessLogBuffer (proxy/internal/handler/accesslog.go): not wired into the proxy.
- Path rules, user-agent filters and hardening profiles of the proxy: single-branch predicates.
- Docker.Docker.StartAndReplace: on the stop-first path it promises nothing about the old container when the call fails, as the source stops it before it starts the new one.
- ReconcilerFixpoint.HealsAreSpaced: needs pass times after the zero time, because the source treats a zero next-allowed time as no limit.
