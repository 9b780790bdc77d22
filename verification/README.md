# Verification of the ManagedServiceAccountReplicaSet controller

This project models the controller that fans a `ManagedServiceAccountReplicaSet` out into OCM
`ManagedServiceAccount` and `ManifestWork` children, and proves what its passes guarantee, one by one and over whole runs.

`dafny verify dfyconfig.toml` checks everything.

## What is modelled

- The hub is a store of children keyed by kind, cluster namespace and name, each with labels, annotations, spec, conditions,
  generation, a terminating mark and a flag saying that some finalizer holds it. `Hub.Client` is the API client the controller works
  through: it holds the sets, the children and the writes sent so far, and its methods change them in place.
- Loops of the controller are methods with loops, proved against functions that say what one pass does
  (`Reconciler.Reconcile` against `Reconciler.ReconcileNamed`). Everything else is proved about those functions.
- A pass is parameterised by what it gets from outside (`Model.Inputs`): the clock, the decision groups of the placements, the SDK's
  rollout algorithm, the remote namespaces a selector matches, and the set of API calls that fail.
- `Protocol` interleaves passes over any number of sets with users, other controllers and agents; `NamespaceCache` interleaves the lock
  sections of concurrent calls on the table of remote namespace caches.

| file | models |
|---|---|
| Model, Metadata, Names, Children | API objects, labels and names, the builders and the comparison of children |
| Rbac, Validation | the grant compiler and the run-time validation |
| Hub, FanOut, FanOutLoop, Cleanup | ensuring and deleting children, cluster by cluster |
| Observation, Rollout, Planning, StatusReport | cluster observation, placement resolution, rollout windows, conditions |
| Reconciler | one whole pass |
| Convergence, Conservation, PassProperties, PassEffects, Reporting | what reconciliations and passes guarantee |
| PassOutcomes, PassStatus, WantedChildren | how passes end, what they report and what they want, from what they find |
| Protocol, Deletion, Settling | runs of passes and surroundings |
| NamespaceCache | the lock-protected cache table |
| Example, Resting, ReadySet | small sets that meet what the main results ask for |
| Witnesses | inputs on which stronger claims fail |

## Assumptions

- Reads see the current store, and passes do not interleave with each other: controller-runtime runs one worker by default and the
  controller sets nothing else. A failed call has no effect.
- Only this controller labels objects as a set's own, whether it creates them or not; anyone may strip such labels from a child. Only it adds or
  removes its finalizer, a deletion cannot be taken back, and the API server never gives a uid twice. Everything else the surroundings do to
  children and sets is unrestricted.
- The SDK's rollout algorithm is an arbitrary function whose to-rollout and timed-out clusters are among those it was asked about and
  whose timed-out entries carry the TimeOut state (`Planning.SdkContract`).
- `stableHash` is an arbitrary function into ten hex characters; where names must differ, it is assumed not to collide on the inputs in
  play (`Names.HashSeparates`). The content hash and the API server's JSON layout are arbitrary functions.
- Placement ref names are distinct where summaries per ref are concerned (`Rollout.UniqueRefs`), as the API schema demands.
- Raw manifest bytes are what they decode to plus a layout; marshalling does not fail.
- Generated fields and counters are unbounded integers where the source has 32-bit ones.

## Where the code promises less than one might expect

Each point has an input on which it shows, and the exact condition.

- Nothing looks at deletion marks. A wanted child that someone has deleted, and that its agent still holds, is left alone, counted ready and
  observed Succeeded (`Resting.AtRestReports`). "In place" and "converged" are to be read that way; the children that nobody has deleted are
  exactly the wanted ones if and only if no wanted child had been deleted before (`PassEffects.CleanPassLiveExactly`).
- A template that takes the name of the controller's access account is accepted. Covering clean passes converge exactly if it asks for that
  very account (`PassEffects.CleanPassConvergesExactly`, `Children.SameAccountExactly`); otherwise passes patch the account for ever
  (`PassEffects.SharedNamePatchesForever`, `Witnesses.SharedNameInput`).
- The object name check does not see namespaces chosen by selectors, so an accepted spec can render the same object twice
  (`Witnesses.AcceptedSpecClashes`); it does so exactly if two grants of one name, one of them with a selector, meet in a namespace
  (`Validation.AcceptedClashExactly`).
- A placement that cannot be read drops out of the selection as long as some other selects a cluster. With it go the works in the clusters
  that only it selected, and then the accounts and so the credentials there (`Witnesses.LostRefLosesChildren`,
  `Witnesses.LostRefLosesCredentials`); `PassEffects.UnselectedGo` says exactly when.
- Counts of the union rollout can exceed the total (`Witnesses.CountsExceedTotal`); the excess is the clusters in both windows
  (`Rollout.CountIdentity`, `Reporting.PassCounts`).
- `RemotePermissionsApplied` speaks of counted clusters only (`PassProperties.PermissionsReported`): selected clusters that wait, outside the
  window and not Succeeded, add nothing to the desired total, also when they were given up (`Witnesses.PermissionsWithoutWorks`). It means all
  selected clusters exactly if the works of the waiting ones are there anyway (`Reporting.PermissionsEverywhereExactly`).
- `Ready` does not keep its transition time while cleanup is pending over ready children, and keeps it otherwise
  (`Witnesses.ReadyTimeMoves`, `StatusReport.ReadyTimeKeptExactly`).

## Model

| member | source | states |
|---|---|---|
| Names.StableChildName | internal/controller/metadata.go:115-125 | a generated name never exceeds 253 characters, whatever its parts |
| Names.WorkNamesDistinct | internal/controller/rbac.go:44-50 | the access, cluster and per-namespace work names of one set are pairwise distinct for any set name, also when only some of them had to be cut, provided no two hashed inputs collide |
| Names.AscendingUnique | internal/controller/managedserviceaccountreplicaset_controller.go:251-257 | an ascending listing of a set is unique, so every place that sorts the same clusters or namespaces yields the same order |
| Metadata.OwnedByOwner | internal/controller/metadata.go:94-100 | the ownership selector of a set matches exactly the labels that name that set, so no object belongs to two sets |
| Metadata.ChildLabelsOwned | internal/controller/metadata.go:71-79 | whatever labels the user supplies, a child is owned by its own set, and an event on it is mapped back to that set |
| Metadata.ChildLabelsKeepUserKeys | internal/controller/metadata.go:85-91 | user labels survive unless their key is reserved |
| Metadata.SanitizedMetadata | internal/controller/metadata.go:85-91 | deleting the reserved keys one by one leaves exactly the other entries |
| Metadata.BuildChildLabels | internal/controller/metadata.go:71-79 | labels built map by map route events back to their own set and placement ref, keep every user label that is not reserved, mark the child for syncing unless the user says otherwise, and hold nothing else |
| Metadata.ChildLabelsExactly | internal/controller/metadata.go:71-91 | those demands on a child's labels determine them completely: the labels meet them exactly if they are the ones the controller builds |
| Rbac.CompileSlices | internal/controller/rbac.go:88-142 | the compiler loop yields exactly the slices of the per-grant, per-namespace specification, and reports failure for the same inputs |
| Rbac.CollectManifests | internal/controller/rbac.go:102-121 | the walk over the grants gathers, per namespace, the manifests of exactly the grants that reach it, in order |
| Rbac.EmitSlices | internal/controller/rbac.go:124-141 | the cluster slice comes first if it is not empty, then one slice per namespace in sorted order |
| Rbac.SlicesWellSliced | internal/controller/rbac.go:88-142 | slices hold one role and binding per grant in grant order; the cluster slice is first, every other slice is non-empty and namespaces strictly ascend; every reached namespace has its slice |
| Rbac.FailingGrantsDropOut | internal/controller/rbac.go:104-121 | with failing grants the slices equal those of the grant list without them, which compiles without error |
| Rbac.UntargetedIsEmpty | internal/controller/rbac.go:109-117 | a namespace gets a slice exactly if some grant reaches it |
| Validation.TargetsExactly | internal/controller/rbac.go:144-175 | a valid grant reaches exactly the namespaces it lists or its selector is given, and fails only through a malformed or unresolved selector |
| Validation.ObjectsTraceToGrants | internal/controller/rbac.go:177-266 | every role and binding in a slice renders one grant that reaches the slice's namespace: name, rules, grant id, source labels and the user's own labels |
| Validation.BindingsRefer | internal/controller/rbac.go:177-248 | every binding refers to the role just before it in its slice and binds the template account to it |
| Validation.ValidateRuntimeSpec | internal/controller/managedserviceaccountreplicaset_controller.go:1288-1354 | a spec is accepted exactly if it is otherwise valid and its object names do not clash, and a rejection names a fault that is there |
| Validation.ValidExactly | internal/controller/managedserviceaccountreplicaset_controller.go:1288-1385 | a spec is valid exactly if no rejection the validators know would be justified |
| Validation.ValidateGrants | internal/controller/managedserviceaccountreplicaset_controller.go:1307-1348 | the grant walk accepts exactly lists of valid grants with distinct ids |
| Validation.ValidateObjectNames | internal/controller/managedserviceaccountreplicaset_controller.go:1356-1385 | the walk with its two sets accepts exactly if no two grants clash |
| Validation.ValidationExact | internal/controller/managedserviceaccountreplicaset_controller.go:1288-1385 | on otherwise valid specs with slash-free namespaces the rendered objects are pairwise distinct over all slices exactly if the name check accepts and no selector grant meets a grant of its name in a common namespace; without selectors, exactly if the name check accepts |
| Validation.DistinctObjectsExactly | internal/controller/rbac.go:88-175 | for any supported spec, with or without selectors, the objects of a cluster are pairwise distinct exactly if no two grants of one name render into the same place |
| Validation.AcceptedClashExactly | internal/controller/managedserviceaccountreplicaset_controller.go:1356-1385 | the objects of an accepted spec clash in a cluster exactly if two grants of one name, at least one of them with a selector, reach a common namespace there |
| Children.WorkSpecsEqual | internal/controller/managedserviceaccountreplicaset_controller.go:1030-1089 | the manifest-wise comparison decides equality of work specs over raw and object form |
| Children.StoredEqual | internal/controller/managedserviceaccountreplicaset_controller.go:1021-1089 | a work spec written to the hub reads back as equal, however the server lays out its JSON |
| Children.StoredEqualExactly | internal/controller/managedserviceaccountreplicaset_controller.go:1021-1089 | a stored work equals a rendered one exactly if propagation policy and manifests are the same |
| Children.DesiredChildOwned | internal/controller/controller_access.go:36-126 | every child of a cluster is owned by its set, lies in its cluster and bears a desired name |
| Children.DesiredKeysAgree | internal/controller/controller_access.go:28-126 | without digest collisions two children of a cluster share a key only if they are the same child, exactly if the template leaves the access account's name alone or asks for that very account |
| Children.WorkKeysAgree | internal/controller/controller_access.go:28-126 | without digest collisions no two works of a cluster share a key, whatever the template is called |
| Children.SameAccountExactly | internal/controller/controller_access.go:28-55 | under the access account's name the template account is the access account exactly if the template adds nothing to the usual labels and annotations, has default rotation and validity and no time to live |
| Hub.Client.EnsureChild | internal/controller/managedserviceaccountreplicaset_controller.go:969-1000 | create, leave, patch or report a conflict exactly as specified, with the new hub state and the write that was sent; Hub.OutcomeExactly says what that comes to |
| Hub.OutcomeExactly | internal/controller/managedserviceaccountreplicaset_controller.go:969-1000 | ensuring a child fails exactly if a call fails that it takes, conflicts exactly if a readable object of someone else holds the key, and sends a create exactly for a missing child and a patch exactly for an own one that is not as wanted |
| Hub.ConflictsExactly | internal/controller/managedserviceaccountreplicaset_controller.go:983-986 | of many children, also when they share keys, those conflict whose readable key is someone else's |
| Hub.SentExactly | internal/controller/managedserviceaccountreplicaset_controller.go:969-1000 | what is sent for many children follows from what was there at first |
| Hub.Client.DeleteWhere | internal/controller/managedserviceaccountreplicaset_controller.go:1149-1160 | walking a listing in any order deletes exactly the doomed children and reports whether any was met or any delete failed |
| Hub.EnsureDone | internal/controller/managedserviceaccountreplicaset_controller.go:969-1006 | a successful ensure leaves the child there, owned and with the labels, annotations and spec that were wanted |
| Hub.EnsureAllPointwise | internal/controller/managedserviceaccountreplicaset_controller.go:969-1000 | when children that share a key are the same, ensuring them one after the other has on each the effect it would have alone |
| Hub.EnsuredAsAlone | internal/controller/managedserviceaccountreplicaset_controller.go:969-1000 | a child whose key only that same child shares is ensured as if alone, whatever the others share |
| Hub.EnsureAllInPlace | internal/controller/managedserviceaccountreplicaset_controller.go:993-995 | ensuring children that are in place writes nothing, whatever calls fail |
| Hub.EnsureAllOnlyOwn | internal/controller/managedserviceaccountreplicaset_controller.go:980-992 | ensuring the children of one set never writes to or changes an object that is not its own |
| FanOutLoop.ReconcileClusters | internal/controller/managedserviceaccountreplicaset_controller.go:780-865 | the loop over the clusters with its running counters equals the specification of the fan-out |
| FanOutLoop.ApplyTo | internal/controller/managedserviceaccountreplicaset_controller.go:797-864 | one cluster of the window: access children, account and works are ensured and counted, a failing step never stops the later ones |
| FanOutLoop.AggregateExisting | internal/controller/managedserviceaccountreplicaset_controller.go:884-939 | a succeeded cluster outside the window adds the same shares from what it holds, and writes nothing |
| FanOutLoop.AddToRefsTwice | internal/controller/rbac.go:314-322 | adding two summaries to every ref of a cluster is adding their sum, so the order of the additions does not matter |
| FanOut.FanOutSplits | internal/controller/managedserviceaccountreplicaset_controller.go:780-865 | the fan-out over all clusters is the clusters' own steps side by side: no cluster sees another's writes |
| FanOut.FanOutWrites | internal/controller/managedserviceaccountreplicaset_controller.go:780-865 | every write of the fan-out creates or patches a desired child in a cluster of the window |
| FanOut.FanOutOnlyOwn | internal/controller/managedserviceaccountreplicaset_controller.go:780-865 | the fan-out of one set leaves all other objects alone |
| Cleanup.DeleteStaleChildren | internal/controller/managedserviceaccountreplicaset_controller.go:1134-1175 | stale works first; accounts are looked at only when no work was stale and nothing failed |
| Cleanup.DeleteOwnChildren | internal/controller/managedserviceaccountreplicaset_controller.go:1186-1230 | works first, skipping terminating ones but waiting for them; accounts only once no work is listed |
| Cleanup.CleanupFootprint | internal/controller/managedserviceaccountreplicaset_controller.go:780-881 | ensured and deleted keys are disjoint, selected clusters outside the window are left alone, only unselected or undesired children are deleted, and nothing after a failure |
| Convergence.StaleAccountsAfterWorks | internal/controller/managedserviceaccountreplicaset_controller.go:1134-1175 | while stale cleanup deletes an account no stale work of the set is on the hub |
| Convergence.PassConverges | internal/controller/managedserviceaccountreplicaset_controller.go:750-882 | a clean reconciliation whose window covers all selected clusters leaves every desired child there, owned and matching, and nothing else of the set but accounts on their way out |
| Convergence.LiveAreWantedExactly | internal/controller/managedserviceaccountreplicaset_controller.go:969-1006 | after such a reconciliation the set's children that nobody has deleted are exactly the desired ones if and only if no desired child had been deleted before |
| Convergence.ConvergedIsStable | internal/controller/managedserviceaccountreplicaset_controller.go:750-882 | on a converged hub a reconciliation with any window and any failing calls changes nothing |
| Convergence.UntroubledReconcile | internal/controller/managedserviceaccountreplicaset_controller.go:750-882 | an undisturbed reconciliation has no conflict or failure; cleanup is pending exactly if unwanted works exist, which are then all terminating; otherwise it converges |
| Observation.ClusterRolloutStatus | internal/controller/managedserviceaccountreplicaset_controller.go:547-624 | the child-by-child observation with its early exits equals the specification |
| Observation.WorkObserved | internal/controller/managedserviceaccountreplicaset_controller.go:679-710 | a work is to be applied exactly if its agent has not applied the spec as it is or says something out of date; otherwise it has succeeded exactly if it no longer progresses, failed exactly if it progresses and is degraded, and is under way else; with the time of the condition that decides |
| Observation.AccountObserved | internal/controller/managedserviceaccountreplicaset_controller.go:670-677 | an account has succeeded exactly if its token is reported or its secret created, and is under way otherwise, since the newer of the two |
| Observation.LookExactly | internal/controller/managedserviceaccountreplicaset_controller.go:626-668 | one look yields to-apply for a missing or outdated child, failed and a conflict for someone else's, an error for an unreadable one, and else what its agent reports |
| Observation.SucceededExactly | internal/controller/managedserviceaccountreplicaset_controller.go:547-710 | a cluster is observed Succeeded without trouble exactly if its works render and each child is readable, as wanted, and done: accounts with a token or secret, works applied and no longer progressing at their current generation, none of it out of date |
| Observation.UnfinishedExactly | internal/controller/managedserviceaccountreplicaset_controller.go:547-624 | otherwise the first child that is not done decides, account before access children before works, and works that do not render come after what is ensured before them |
| Observation.ObservationIsConjunction | internal/controller/managedserviceaccountreplicaset_controller.go:547-731 | a cluster is Succeeded without error exactly if rendering works and every child is in place and itself Succeeded at its current generation; the time is the newest of the children's |
| Observation.NewestUnique | internal/controller/managedserviceaccountreplicaset_controller.go:720-731 | the newest time does not depend on the order of the children |
| Observation.GatingLosesNoWrite | internal/controller/managedserviceaccountreplicaset_controller.go:547-624 | applying a cluster observed Succeeded would leave the hub unchanged |
| Observation.GatingRefinesFull | internal/controller/managedserviceaccountreplicaset_controller.go:782-791 | the gated fan-out leaves the same hub as one that also applies every cluster it skips as Succeeded |
| Rollout.ResolvePlacementRefs | internal/controller/managedserviceaccountreplicaset_controller.go:217-277 | the loop over the refs yields the sorted union, each cluster's refs in spec order and one status per ref |
| Rollout.PrimaryIsFirst | internal/controller/managedserviceaccountreplicaset_controller.go:209-215 | the first ref recorded for a cluster is the first ref of the spec whose placement selects it |
| WantedChildren.FirstRefOwns | internal/controller/managedserviceaccountreplicaset_controller.go:209-215 | every child that a pass wants in a cluster, accounts and works alike, is labelled with the first placement ref of the spec that selects the cluster |
| Rollout.RefsSelectingExactly | internal/controller/managedserviceaccountreplicaset_controller.go:252-255 | with distinct ref names a cluster lists exactly the refs that select it, each once |
| Rollout.NewRolloutSummary | internal/controller/managedserviceaccountreplicaset_controller.go:461-501 | for any map iteration order, updating is the size of the update window, succeeded and failed are the clusters outside both windows in that state, timed out is the timed-out window and those outside both in that state, and the rollout is completed exactly if there are clusters and all succeeded |
| Rollout.CountIdentity | internal/controller/managedserviceaccountreplicaset_controller.go:461-484 | updating, succeeded, failed and timed out add up to the clusters, plus those in both windows, minus those still waiting outside both |
| Rollout.CompletedExactly | internal/controller/managedserviceaccountreplicaset_controller.go:461-499 | a rollout is Completed exactly if there is a cluster, both windows are empty and every cluster is Succeeded |
| Planning.PlanRollout | internal/controller/managedserviceaccountreplicaset_controller.go:322-420 | the planning loop with its aborts equals the specification |
| Planning.PlanOneRef | internal/controller/managedserviceaccountreplicaset_controller.go:335-409 | one ref: observe its clusters, ask the SDK, overlay the answers, count |
| Planning.WindowExactly | internal/controller/managedserviceaccountreplicaset_controller.go:377-395 | a cluster is in the window exactly if some ref rolls it out, and timed out exactly if some ref says so |
| Planning.SoonestRecheck | internal/controller/managedserviceaccountreplicaset_controller.go:405-408 | the plan is rechecked at the soonest positive time any ref asks for, and not at all if none does |
| Planning.PlanRefsOk | internal/controller/managedserviceaccountreplicaset_controller.go:322-420 | the plan speaks of exactly the selected clusters, and outside the window every status is the observed one or a timeout |
| Planning.SucceededWasObserved | internal/controller/managedserviceaccountreplicaset_controller.go:354-395 | a cluster held for Succeeded outside the window was observed so without error |
| Planning.EachRefCounts | internal/controller/managedserviceaccountreplicaset_controller.go:335-404 | the rollout summary of each placement counts its own clusters: as rolled out or timed out by the SDK's answer for it, and else as they were observed |
| Planning.UnionCounts | internal/controller/managedserviceaccountreplicaset_controller.go:411-418 | that of the union counts each selected cluster, as rolled out or timed out if the answer for any placement says so, and else as observed |
| Planning.PlanFailsExactly | internal/controller/managedserviceaccountreplicaset_controller.go:335-373 | planning fails exactly if for some placement with decision groups a cluster cannot be read or the SDK has no answer; a foreign child does not stop it |
| Planning.AskedExactly | internal/controller/managedserviceaccountreplicaset_controller.go:354-373 | the SDK is asked about exactly the placement's clusters, ascending and as observed, and for a placement without a strategy as for one that rolls out all at once |
| StatusReport.ReadyExactly | internal/controller/managedserviceaccountreplicaset_controller.go:153-169 | Ready is true exactly if the pass had no error, conflict, failure or pending cleanup and counted every cluster ready |
| StatusReport.RolledOutExactly | internal/controller/managedserviceaccountreplicaset_controller.go:430-443 | PlacementRolledOut is true exactly if the rollout summary is Completed, whatever else happened |
| StatusReport.PermissionsExactly | internal/controller/managedserviceaccountreplicaset_controller.go:1456-1465 | RemotePermissionsApplied is true exactly if RBAC is off, or nothing went wrong and no counted slice lacks an available work |
| StatusReport.ReadyTimeKeptExactly | internal/controller/managedserviceaccountreplicaset_controller.go:163-169 | repeating a pass keeps the Ready condition exactly unless cleanup is pending although the children are ready; then its transition time moves |
| Reconciler.Reconcile | internal/controller/managedserviceaccountreplicaset_controller.go:94-192 | one pass as the controller runs it changes set, status, children and requeue exactly as the specification says |
| Reconciler.ReconcileDelete | internal/controller/managedserviceaccountreplicaset_controller.go:1186-1256 | the pass over a deleted set, with its waits and the removal of the finalizer |
| Reconciler.ReconcileChildrenOf | internal/controller/managedserviceaccountreplicaset_controller.go:750-882 | fan-out and stale cleanup together, cleanup only without failures |
| Reconciler.ReconcilePlanned | internal/controller/managedserviceaccountreplicaset_controller.go:144-191 | status, patch errors and the choice of the next pass after the children were reconciled |
| Reconciler.JobForOk | internal/controller/managedserviceaccountreplicaset_controller.go:750-864 | whatever labels and grants a spec has, its children are owned, lie in their cluster, and are exactly the names cleanup spares |
| PassOutcomes.FinalizerFirst | internal/controller/managedserviceaccountreplicaset_controller.go:109-119 | a pass over a live set without the finalizer adds just that and does nothing else; if it cannot, it leaves the set as it is and is retried |
| PassOutcomes.FinalizersExactly | internal/controller/managedserviceaccountreplicaset_controller.go:105-119 | of the finalizers a pass changes only its own: on a live set it is there afterwards unless it could not be written, and on a deleted set it goes exactly if no child is left and no call fails |
| PassOutcomes.PassSendsExactly | internal/controller/managedserviceaccountreplicaset_controller.go:793-864 | a pass creates exactly the wanted children that are missing and patches exactly the set's own that are not as wanted, in window clusters whose namespace is there and as far as it can read |
| PassOutcomes.PassConflictsExactly | internal/controller/managedserviceaccountreplicaset_controller.go:733-748 | a pass counts a conflict exactly if in some cluster of its window a readable wanted key is someone else's |
| PassOutcomes.PassFailuresExactly | internal/controller/managedserviceaccountreplicaset_controller.go:733-748 | and a failure exactly if in some cluster of its window the namespace is missing, the works do not render, or a call fails that a child takes |
| PassOutcomes.FailedWriteRetries | internal/controller/managedserviceaccountreplicaset_controller.go:741-748 | a create or patch that fails is counted as a failure, keeps the pass from deleting anything, and has it retried |
| PassOutcomes.CleanupExactly | internal/controller/managedserviceaccountreplicaset_controller.go:1134-1175 | cleanup is pending exactly if stale works were there and could be listed, and a pass without failures in its clusters fails exactly if a listing it needs or one of its deletes does |
| PassOutcomes.RequeueExactly | internal/controller/managedserviceaccountreplicaset_controller.go:171-191 | when a pass comes back: at once exactly after an error, soon while cleanup is pending, else when the rollout or the selectors ask for it, and else not |
| PassOutcomes.KeepsExactly | internal/controller/managedserviceaccountreplicaset_controller.go:102-140 | the namespace caches kept are those of all selected clusters exactly for a live, held and valid set with selectors, and none otherwise |
| PassOutcomes.StopsShortExactly | internal/controller/managedserviceaccountreplicaset_controller.go:121-135 | an invalid spec, or placements of which none resolves, touch no child and withdraw every claim in the status, for the reason given |
| PassOutcomes.UnplannedExactly | internal/controller/managedserviceaccountreplicaset_controller.go:142-149 | a pass that cannot plan touches no child, is retried and says that applying failed, and leaves the rollout condition as it was |
| PassOutcomes.DeletionWaitsExactly | internal/controller/managedserviceaccountreplicaset_controller.go:1201-1256 | without failing calls a pass over a deleted set waits exactly as long as a child is listed, and says so |
| PassOutcomes.DeletionErrorRetries | internal/controller/managedserviceaccountreplicaset_controller.go:1186-1226 | a failing listing or delete has a deletion retried and leaves the set unchanged |
| PassOutcomes.DeletionComesBack | internal/controller/managedserviceaccountreplicaset_controller.go:1186-1256 | a deletion never gets stuck: as long as the finalizer is there the set comes back, and later only if its status says that it waits |
| PassStatus.RolloutsReported | internal/controller/managedserviceaccountreplicaset_controller.go:411-428 | the status reports those counts for the union and for each placement |
| PassStatus.PlacementReported | internal/controller/managedserviceaccountreplicaset_controller.go:234-248 | a placement is reported resolved exactly if it could be read, empty exactly if it then selects nothing, and with the number of its clusters |
| PassStatus.ReadyCountsReported | internal/controller/managedserviceaccountreplicaset_controller.go:780-871 | the ready count is exactly the clusters all of whose children were ensured and are in place and ready, or that are planned as Succeeded outside the window; the access count, there exactly for sets with selectors, likewise for the access children |
| PassStatus.ReasonsReported | internal/controller/managedserviceaccountreplicaset_controller.go:1426-1465 | errors come before conflicts before waiting; pending cleanup overrules Ready alone and is what CleanupBlocked says |
| PassStatus.TimesReported | internal/controller/managedserviceaccountreplicaset_controller.go:1278-1286 | no condition of the set, its rollout, its placements or its access moves its transition time unless its status changes, but for Ready while cleanup is pending |
| PassStatus.SummaryReported | internal/controller/managedserviceaccountreplicaset_controller.go:829-856 | there is a summary of the works exactly if the set has RBAC and some selected cluster is applied or Succeeded |
| WantedChildren.WorksDescribeThemselves | internal/controller/rbac.go:44-84 | every work a pass wants carries its manifests as objects under the digest of exactly these, and its namespace label, if any, is the namespace of all of them |
| WantedChildren.AccessForItsAccount | internal/controller/controller_access.go:57-113 | the access work lets exactly the access account of its cluster read namespaces there |
| PassProperties.ReadyWithinSelected | internal/controller/managedserviceaccountreplicaset_controller.go:780-865 | the ready counts never exceed the number of selected clusters |
| PassProperties.ReadySound | internal/controller/managedserviceaccountreplicaset_controller.go:153-169 | a pass that reports Ready met no trouble and has every selected cluster fully in place and ready inside the window, or observed Succeeded outside it |
| PassProperties.ReadyReported | internal/controller/managedserviceaccountreplicaset_controller.go:153-169 | a pass reports Ready exactly if it met no trouble, left nothing to clean up, and every selected cluster has all its children in place and ready if it is in the window, and is planned as Succeeded otherwise |
| PassProperties.RolledOutImpliesReady | internal/controller/managedserviceaccountreplicaset_controller.go:430-443 | a pass that reports the placement rolled out counts every selected cluster ready, creates and patches nothing and deletes only in unselected clusters |
| PassProperties.RolledOutReported | internal/controller/managedserviceaccountreplicaset_controller.go:430-499 | a pass reports the placement rolled out exactly if some cluster is selected, the plan has nothing to roll out and nothing timed out, and every selected cluster is planned as Succeeded |
| PassProperties.PassSummaries | internal/controller/managedserviceaccountreplicaset_controller.go:829-939 | the global summary is the sum of one share per cluster, each placement's the sum over exactly its clusters, the placements together each share times its refs; all counts within bounds and updated equals total |
| PassProperties.PermissionsSound | internal/controller/managedserviceaccountreplicaset_controller.go:1456-1465 | with permissions reported applied, the works of every counted cluster are in place and available |
| PassProperties.PermissionsReported | internal/controller/managedserviceaccountreplicaset_controller.go:1456-1465 | a pass over a set with RBAC reports permissions applied exactly if it met no trouble and the works of every cluster in its window or Succeeded are all in place, available and could be read |
| PassProperties.OnlyFullPassesReport | internal/controller/managedserviceaccountreplicaset_controller.go:105-148 | no pass that stops early turns Ready or PlacementRolledOut true |
| PassProperties.StopsOnlyWhenSettled | internal/controller/managedserviceaccountreplicaset_controller.go:171-191 | a live pass ends without a further one only if nothing failed and neither cleanup, recheck nor a selector is outstanding |
| PassProperties.DeletionStopsOnlyWhenDone | internal/controller/managedserviceaccountreplicaset_controller.go:1186-1256 | a pass over a deleted set ends without a further one only if none of its children is left |
| PassProperties.KeepsSelectedOnly | internal/controller/managedserviceaccountreplicaset_controller.go:102-140 | namespace caches are kept only in selected clusters of a live set with selector grants |
| Conservation.SummariesConserved | internal/controller/managedserviceaccountreplicaset_controller.go:829-939 | the summaries of a fan-out are conserved over clusters and refs and stay within bounds on both aggregation paths |
| Conservation.RefsShareEachCluster | internal/controller/managedserviceaccountreplicaset_controller.go:835-856 | added up over all refs, each cluster's share counts once per ref that selects it |
| Conservation.CountedExactly | internal/controller/rbac.go:287-312 | each count of a summary is the number of obtained works with that condition true at their current generation |
| Conservation.StepSound | internal/controller/managedserviceaccountreplicaset_controller.go:780-939 | on every path a cluster's share has its counts at most total, updated equal to total, and total at most desired |
| PassEffects.PassOnlyOwn | internal/controller/managedserviceaccountreplicaset_controller.go:94-192 | no pass over a set, live or deleted, writes to or changes a child that is not that set's own |
| PassEffects.PassFootprint | internal/controller/managedserviceaccountreplicaset_controller.go:780-881 | what a whole pass may create, patch and delete, and where |
| PassEffects.PassDeletesWorksFirst | internal/controller/managedserviceaccountreplicaset_controller.go:1134-1175 | when a pass over a live set deletes an account, no stale work is left, and none at all in an unselected cluster of that account |
| PassEffects.SkippingLosesNothing | internal/controller/managedserviceaccountreplicaset_controller.go:782-791 | had the pass applied the clusters it skips as succeeded, its fan-out would have left the same hub, provided selectors resolve as in planning |
| PassEffects.CleanPassConverges | internal/controller/managedserviceaccountreplicaset_controller.go:94-192 | a clean pass whose window covers all selected clusters leaves every wanted child there, owned and matching, and nothing else of the set but accounts on their way out |
| PassEffects.CleanPassConvergesExactly | internal/controller/managedserviceaccountreplicaset_controller.go:94-192 | for any template, also one with the access account's name, such a pass converges exactly if the template fits or nothing is selected |
| PassEffects.CleanPassLiveExactly | internal/controller/managedserviceaccountreplicaset_controller.go:969-1006 | after such a pass the set's children that nobody has deleted are exactly the wanted ones if and only if no wanted child had been deleted before: nothing looks at deletion marks |
| PassEffects.UnselectedGo | internal/controller/managedserviceaccountreplicaset_controller.go:1134-1175 | a placement that cannot be read protects nothing: in a cluster that no readable placement selects the pass asks to delete exactly the set's own works, provided works could be listed and no cluster failed, and exactly its own accounts too if accounts could be listed and no stale work was left |
| PassEffects.CoveredPassConverges | internal/controller/managedserviceaccountreplicaset_controller.go:780-881 | a clean pass over clusters that are in the window or observed Succeeded leaves every wanted child in place, and of its own nothing else but accounts on their way out and what is spared in skipped clusters |
| PassEffects.ConvergedForGood | internal/controller/managedserviceaccountreplicaset_controller.go:94-192 | from a converged hub no number of passes changes a child while placements and remote namespaces stay as they are |
| PassEffects.UntroubledPassConverges | internal/controller/managedserviceaccountreplicaset_controller.go:94-192 | an undisturbed pass converges at once unless unwanted works are left, and then all that stands in the way is their agents |
| PassEffects.SharedNameSettles | internal/controller/controller_access.go:28-55 | if the template takes the access account's name, both children can be in place exactly if they are the same object, which they are exactly if the template is plain |
| PassEffects.ConvergedTemplateFits | internal/controller/controller_access.go:28-55 | a hub is converged only for a set whose template leaves the access account's name alone or asks for that very account |
| PassEffects.SharedNamePatchesForever | internal/controller/managedserviceaccountreplicaset_controller.go:800-828 | with any other template every pass without failing calls patches the account again in every cluster of its window where the account is the set's own or missing |
| Reporting.UntroubledPassReports | internal/controller/managedserviceaccountreplicaset_controller.go:94-192 | an undisturbed pass that finds every wanted child in place and ready, and no unwanted work, is clean and reports Ready and RemotePermissionsApplied |
| Reporting.PermissionsEverywhereExactly | internal/controller/managedserviceaccountreplicaset_controller.go:1456-1465 | with permissions reported applied, the works of all selected clusters are in place and available when the pass ends if and only if those of the selected clusters that wait, outside the window and not Succeeded, were so before it |
| Reporting.PermissionsEverywhere | internal/controller/managedserviceaccountreplicaset_controller.go:1456-1465 | in particular they are when every selected cluster is in the window or Succeeded |
| Reporting.PassCounts | internal/controller/managedserviceaccountreplicaset_controller.go:461-484 | the counts a pass reports for the union of its placements exceed the selected clusters by those in both windows, less those waiting outside both |
| Protocol.ReachableNoOrphans | internal/controller/managedserviceaccountreplicaset_controller.go:105-119 | in every reachable world a child labelled as a set's own implies that this very set exists and carries the finalizer |
| Protocol.PassTakesHold | internal/controller/managedserviceaccountreplicaset_controller.go:109-119 | whatever else it meets, a pass over a live set leaves it held by the finalizer unless that cannot be written |
| Protocol.HeldUntilDeleted | internal/controller/managedserviceaccountreplicaset_controller.go:105-119 | and from then on the set is held in every reachable world until someone deletes it |
| Protocol.OwnerForLife | internal/controller/managedserviceaccountreplicaset_controller.go:980-992 | over whole runs no pass ever changes whose a child is: it never becomes another set's, and stays its set's own unless someone strips its labels |
| Protocol.OthersLeaveAlone | internal/controller/managedserviceaccountreplicaset_controller.go:969-1000 | any number of passes over other sets leaves a set's children exactly as they are |
| Protocol.CredentialsGoLast | internal/controller/managedserviceaccountreplicaset_controller.go:1186-1230 | when a deleted set's account is deleted none of its works exists, and none ever appears again |
| Deletion.MeasureNeverGrows | internal/controller/managedserviceaccountreplicaset_controller.go:1186-1244 | for a set that is being deleted, no step of anyone increases live and terminating children and finalizer |
| Deletion.ReleaseProgress | internal/controller/managedserviceaccountreplicaset_controller.go:1201-1204 | an agent that lets go of a child brings the deletion strictly closer |
| Deletion.PassProgress | internal/controller/managedserviceaccountreplicaset_controller.go:1186-1256 | an undisturbed pass over a deleted set brings the deletion strictly closer, except exactly if nothing is left to do or all its works, or when it has none all its accounts, are terminating already; and then an agent can release one of those |
| Deletion.ThreePassesComplete | internal/controller/managedserviceaccountreplicaset_controller.go:1186-1256 | three undisturbed passes complete a deletion, whatever happens in between, once the agents let go of what each pass deleted |
| Settling.TwoPassesConverge | internal/controller/managedserviceaccountreplicaset_controller.go:94-192 | two undisturbed passes over a live set lead to exactly what it wants, whatever happens in between to other sets and to its own children, once the agents let go of the unwanted works that the first pass stopped |
| Settling.PassAddsNoUnwanted | internal/controller/managedserviceaccountreplicaset_controller.go:750-882 | no pass over a live set turns a work into one that is not wanted |
| Resting.AtRestReports | internal/controller/managedserviceaccountreplicaset_controller.go:547-624 | a set at rest reports Ready and rolled out, even if its one account has been deleted and is on its way out |
| ReadySet.HypothesesMet | internal/controller/managedserviceaccountreplicaset_controller.go:94-192 | the hypotheses of the results about clean, undisturbed and reporting passes hold together on a set with a role whose children are ready, given only that no digests collide; the pass then converges and reports Ready and RemotePermissionsApplied |
| Witnesses.ReadyTimeMoves | internal/controller/managedserviceaccountreplicaset_controller.go:153-169 | a pass with cleanup pending over ready children, whose repetition moves the transition time of Ready |
| Witnesses.PermissionsWithoutWorks | internal/controller/managedserviceaccountreplicaset_controller.go:1456-1465 | a pass that reports permissions applied although the one selected cluster has none of its works, because it was under way for too long and the SDK gave it up |
| Witnesses.CountsExceedTotal | internal/controller/managedserviceaccountreplicaset_controller.go:461-484 | two placements and an SDK within its contract that put one cluster into both windows: counts of two in a total of one |
| Witnesses.LostRefLosesChildren | internal/controller/managedserviceaccountreplicaset_controller.go:125-139 | one of two placements cannot be read, and the pass deletes a work of a cluster that only that one may select |
| Witnesses.LostRefLosesCredentials | internal/controller/managedserviceaccountreplicaset_controller.go:125-139 | and, once no work is left, an account of such a cluster |
| Witnesses.SharedNameInput | internal/controller/managedserviceaccountreplicaset_controller.go:1288-1354 | an accepted spec whose template takes the access account's name, and whose every pass patches the account |
| Witnesses.AcceptedSpecClashes | internal/controller/managedserviceaccountreplicaset_controller.go:1356-1385 | an accepted spec whose fixed grant and selector grant render the same objects |
| NamespaceCache.CacheTable.Publish | internal/controller/namespace_resolver.go:212-231 | publishing keeps an entry that came in meanwhile, or replaces the siblings of the same set and cluster |
| NamespaceCache.CacheTable.StopNamespaceCaches | internal/controller/namespace_resolver.go:237-250 | the loop that stops and deletes entries equals its set-based specification |
| NamespaceCache.CacheTable.EnsureNamespaceCache | internal/controller/namespace_resolver.go:158-235 | a call that runs alone returns the entry under its key and changes nothing, or builds one and replaces the siblings of its set and cluster |
| NamespaceCache.CacheTable.ShutDown | internal/controller/namespace_resolver.go:252-267 | shutting down stops every cache and empties the table |
| NamespaceCache.KeySeparates | internal/controller/namespace_resolver.go:302-312 | two slash-free requests share a key only if set, cluster and profile are the same |
| NamespaceCache.AlwaysConsistent | internal/controller/namespace_resolver.go:158-250 | under every interleaving of lock sections: one entry per set and cluster, no stopped cache in the table, and every cache ever built is in the table, stopped or held by its call, and only one of these |
| NamespaceCache.ReturnedIsRight | internal/controller/namespace_resolver.go:169-171 | what a call returns is at that moment the running entry under its key, of the set and cluster it asked for |
| NamespaceCache.StopLeavesExactly | internal/controller/namespace_resolver.go:237-250 | stopping leaves exactly other sets' entries and the kept clusters', and stops exactly the rest |
| NamespaceCache.PublishLeavesExactly | internal/controller/namespace_resolver.go:212-231 | publishing keeps an entry that came in meanwhile and stops just the late cache; otherwise it adds its own and stops and takes away exactly the others of its set and cluster |
| NamespaceCache.ShutdownStopsAll | internal/controller/namespace_resolver.go:252-267 | after shutdown the table is empty and every cache that was ever built is stopped |

## Left out

- Kubernetes client, cache and watch plumbing, `SetupWithManager`, request mapping functions, events and logging: library wiring.
- The read of the set itself at the start of a pass: only its absence is modelled, not its failure.
- The OCM SDK's decision-group tracker and rollout algorithm: not part of this repository; see the assumption above.
- Condition messages, and `availableDecisionGroups`: formatting only. A status patch that would change nothing but a message is not sent in the model.
- SHA-256, JSON encoding and `Semantic.DeepEqual` internals: an arbitrary hash, values with a layout, and equality of values.
- Stale informer reads and races of outside actors between a read and a patch: ensuring one child is one step.
- Exec-provider arguments, ClusterProfile lookup, remote configuration, informer running, event channel and sync timeouts.
- FanOutLoop.ApplyTo: takes the compiled slices of a cluster as a value from `Rbac.DesiredSlices`, which `Rbac.CompileSlices` is proved to compute, instead of calling the compiler loop.
- Planning.PlanRollout: reads the store as a value, since planning writes nothing.
- NamespaceCache.AlwaysConsistent: shutdown is modelled only when no call is in flight, and ends the run; a cache built before `Start` recorded its context and published after shutdown is not covered.
- PassEffects.CleanPassConverges: a wanted child may itself be on its way out, see above; and unwanted accounts on their way out may still be on the hub, because the controller does not wait for them after stale cleanup.
- PassEffects.SkippingLosesNothing: speaks of the fan-out; a skipped cluster whose namespace read would fail could otherwise stop the cleanup that follows.
- StatusReport.ReadyTimeKeptExactly: is about the Ready condition only; `PassStatus.TimesReported` has the others.
- API types, deepcopy, CRDs, Helm chart, documentation, shell and TypeScript tests.
