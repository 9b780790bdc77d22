/** How passes end, from what they find: the finalizer, what is sent, failures, conflicts, and the next pass. */
module PassOutcomes {
  import opened Model
  import opened Metadata
  import opened Children
  import opened Hub
  import opened FanOut
  import opened Cleanup
  import opened Convergence
  import opened Rollout
  import opened StatusReport
  import opened Reconciler
  import opened PassProperties
  import opened PassEffects
  import Planning

  // ---------------------------------------------------------------- the finalizer

  /** A pass that finds a live set without the finalizer adds just that, and does nothing else; if it cannot, it leaves
      the set as it is and tries again. */
  lemma FinalizerFirst(p: ReplicaSet, h: HubState, inputs: Inputs)
    requires !p.deleting && FINALIZER !in p.finalizers
    ensures var pass := ReconcilePass(p, h, inputs);
            && pass.hub == h && pass.keep == {}
            && (PatchFinalizers !in inputs.faults ==>
                  pass.parent == p.(finalizers := p.finalizers + {FINALIZER}) && pass.requeue == Stop)
            && (PatchFinalizers in inputs.faults ==> pass.parent == p && pass.requeue == Retry)
  {
    hide ResolvedPass, ValidSpec;
  }

  /** Of the finalizers a pass changes only its own: on a live set it is there afterwards, unless it could not be added;
      on a deleted set it goes exactly if none of the set's children is left and no call fails that this takes. */
  lemma FinalizersExactly(p: ReplicaSet, h: HubState, inputs: Inputs)
    ensures var after := ReconcilePass(p, h, inputs).parent.finalizers;
            && after - {FINALIZER} == p.finalizers - {FINALIZER}
            && (!p.deleting ==>
                  (FINALIZER in after <==> FINALIZER in p.finalizers || PatchFinalizers !in inputs.faults))
            && (p.deleting && FINALIZER in p.finalizers ==>
                  (FINALIZER !in after <==>
                     OwnedOf(h.store, p.id) == {} && {ListWorks, ListAccounts, PatchFinalizers} !! inputs.faults))
            && (p.deleting && FINALIZER !in p.finalizers ==> FINALIZER !in after)
  {
    hide ReconcileChildren, Planning.PlanRefs, Resolve, PlanJob, ApplyJob, FullStatus, ValidSpec, EarlyReturn,
         UnplannedStatus, WaitStatus, DeletePass, OwnedOf;
    if p.deleting { CleanedUpExactly(h, p.id, inputs.faults); }
  }

  lemma CleanedUpExactly(h: HubState, id: SetId, faults: set<Call>)
    ensures DeletePass(h, id, faults).1.CleanedUp?
            <==> OwnedOf(h.store, id) == {} && {ListWorks, ListAccounts} !! faults
  {
    hide Owner, OwnedBySet, DeleteAll;
    OwnedKeys(h.store, id, WorkKind);
    OwnedKeys(h.store, id, AccountKind);
    var works, accounts := Owned(h.store, id, WorkKind), Owned(h.store, id, AccountKind);
    assert forall k :: k in OwnedOf(h.store, id) <==> k in works || k in accounts;
    assert works == {} ==> Live(h.store, works) == {};
    assert accounts == {} ==> Live(h.store, accounts) == {};
  }

  // ---------------------------------------------------------------- what is sent

  lemma StepSent(h: HubState, c: string, x: Job, w: Write)
    requires ClusterOk(x, c) && KeysAgree(ChildrenOf(x, c))
    ensures w in StepCluster(h, c, x).0.writes <==> w in h.writes || ClusterSends(h.store, c, x, w)
  {
    hide EnsureAll, KeysAgree, Owner, Sends, ChildrenOf, AllReady, Contribution, CountConflicts, CountFailures;
    ChildrenOwned(x, c);
    SentExactly(h, x.id, ChildrenOf(x, c), x.faults, w);
  }

  /** A write that a cluster of the window calls for. */
  ghost predicate ClusterSends(store: Store, c: string, x: Job, w: Write) {
    c in x.window && GetClusterNamespace(c) !in x.faults
    && exists d | d in ChildrenOf(x, c) :: Sends(store, x.id, d, x.faults, w)
  }

  lemma ClusterSendsAsBefore(a: Store, b: Store, c: string, x: Job, w: Write)
    requires ClusterOk(x, c) && Agree(a, b, c)
    ensures ClusterSends(a, c, x, w) <==> ClusterSends(b, c, x, w)
  {
    hide Sends, ChildrenOf, Owner;
    forall d | d in ChildrenOf(x, c) ensures Sends(a, x.id, d, x.faults, w) <==> Sends(b, x.id, d, x.faults, w) {
      assert Get(a, d.key) == Get(b, d.key);
      SendsAsBefore(a, b, x.id, d, x.faults, w);
    }
  }

  lemma {:induction false} FanOutSent(h: HubState, clusters: seq<string>, x: Job, w: Write)
    requires NoRepeats(clusters) && JobOk(x) && forall c | c in clusters :: KeysAgree(ChildrenOf(x, c))
    ensures w in FanOutAll(h, clusters, x).0.writes
            <==> w in h.writes || exists c | c in clusters :: ClusterSends(h.store, c, x, w)
  {
    hide StepCluster, KeysAgree, ChildrenOf, ClusterSends, ClusterOk;
    var n := |clusters| - 1;
    if n >= 0 {
      var before, c := FanOutAll(h, clusters[..n], x).0, clusters[n];
      assert forall b :: b in clusters <==> b in clusters[..n] || b == c;
      FanOutSent(h, clusters[..n], x, w);
      FanOutSplits(h, clusters[..n], x);
      assert ClusterOk(x, c) && Agree(before.store, Expected(h, clusters[..n], x, c), c);
      StepSent(before, c, x, w);
      ClusterSendsAsBefore(before.store, h.store, c, x, w);
    }
  }

  lemma SweepSendsDeletes(h: HubState, id: SetId, selected: set<string>, cleanup: set<string>,
                          works: map<string, set<string>>, accounts: set<string>, faults: set<Call>, w: Write)
    requires !w.Delete?
    ensures w in DeleteStale(h, id, selected, cleanup, works, accounts, faults).hub.writes <==> w in h.writes
  {
    hide StaleWorks, StaleAccounts, DeleteFails;
  }

  /** A pass creates exactly the wanted children that are missing, and patches exactly the set's own that are not as
      wanted, in the clusters of its window whose namespace is there and as far as it can read. */
  lemma PassSendsExactly(p: ReplicaSet, h: HubState, inputs: Inputs, w: Write)
    requires ReachesChildren(p, h, inputs) && !w.Delete?
    requires forall c | c in ResolutionOf(p, inputs).clusters :: NamesApart(p.id, p.spec, c, inputs.resolve)
    ensures w in ReconcilePass(p, h, inputs).hub.writes
            <==> w in h.writes
                 || exists c | c in ResolutionOf(p, inputs).clusters :: ClusterSends(h.store, c, JobOf(p, h, inputs), w)
  {
    hide PlanOf, Resolve, ApplyJob, ValidSpec, NamesApart, KeysAgree, ChildrenOf, ClusterSends, JobOk, FanOutAll,
         DeleteStale, ReconcilePass;
    var clusters, window, x := ResolutionOf(p, inputs).clusters, PlanOf(p, h, inputs).value.window, JobOf(p, h, inputs);
    PassOfChildren(p, h, inputs);
    JobFacts(p, h, inputs);
    forall c | c in clusters { AgreesInJob(p, h, inputs, c); }
    FanOutSent(h, clusters, x, w);
    var (fanned, t) := FanOutAll(h, clusters, x);
    SweepSendsDeletes(fanned, x.id, Selected(clusters), window, t.works, x.accounts, x.faults, w);
  }

  // ---------------------------------------------------------------- failures and conflicts

  lemma {:induction false} CountsZero(outcomes: seq<Outcome>)
    ensures CountConflicts(outcomes) == 0 <==> forall o | o in outcomes :: !o.Conflict?
    ensures CountFailures(outcomes) == 0 <==> forall o | o in outcomes :: !o.Failed?
  {
    var n := |outcomes| - 1;
    if n >= 0 {
      CountsZero(outcomes[..n]);
      assert forall o :: o in outcomes <==> o in outcomes[..n] || o == outcomes[n];
    }
  }

  /** Nothing fails in a cluster: its namespace is there, its works render, and every call succeeds that its children
      take. */
  ghost predicate Smooth(store: Store, c: string, x: Job) {
    && GetClusterNamespace(c) !in x.faults && !x.failed(c)
    && forall d | d in ChildrenOf(x, c) :: !CallFails(store, x.id, d, x.faults)
  }

  /** No readable key that is wanted in the cluster is someone else's. */
  ghost predicate Unclaimed(store: Store, c: string, x: Job) {
    GetClusterNamespace(c) !in x.faults ==>
      forall d | d in ChildrenOf(x, c) && GetChild(d.key) !in x.faults :: !Foreign(store, x.id, d.key)
  }

  lemma OutcomesExactly(h: HubState, id: SetId, ds: seq<Desired>, faults: set<Call>)
    requires forall d | d in ds :: Owner(d.labels) == Some(id)
    ensures CountConflicts(EnsureAll(h, id, ds, faults).1) == 0
            <==> forall d | d in ds && GetChild(d.key) !in faults :: !Foreign(h.store, id, d.key)
    ensures KeysAgree(ds) ==>
              (CountFailures(EnsureAll(h, id, ds, faults).1) == 0
               <==> forall d | d in ds :: !CallFails(h.store, id, d, faults))
  {
    hide EnsureAll, KeysAgree, Owner, Foreign, CallFails, CountConflicts, CountFailures;
    var outcomes := EnsureAll(h, id, ds, faults).1;
    CountsZero(outcomes);
    forall i | 0 <= i < |ds|
      ensures outcomes[i].Conflict? <==> GetChild(ds[i].key) !in faults && Foreign(h.store, id, ds[i].key)
      ensures KeysAgree(ds) ==> (outcomes[i].Failed? <==> CallFails(h.store, id, ds[i], faults))
      ensures ds[i] in ds && outcomes[i] in outcomes
    {
      ConflictsExactly(h, id, ds, faults, i);
      if KeysAgree(ds) {
        EnsureAllPointwise(h, id, ds, faults, i);
        OutcomeExactly(h, id, ds[i], faults);
      }
    }
  }

  lemma StepFailuresExactly(h: HubState, c: string, x: Job)
    requires ClusterOk(x, c) && KeysAgree(ChildrenOf(x, c)) && c in x.window
    ensures StepCluster(h, c, x).1.failures == 0 <==> Smooth(h.store, c, x)
  {
    hide EnsureAll, KeysAgree, Owner, CallFails, ChildrenOf, AllReady, Contribution, CountConflicts, CountFailures,
         Foreign, ClusterOk;
    ChildrenOwned(x, c);
    OutcomesExactly(h, x.id, ChildrenOf(x, c), x.faults);
  }

  lemma StepConflictsExactly(h: HubState, c: string, x: Job)
    requires ClusterOk(x, c) && c in x.window
    ensures StepCluster(h, c, x).1.conflicts == 0 <==> Unclaimed(h.store, c, x)
  {
    hide EnsureAll, KeysAgree, Owner, CallFails, ChildrenOf, AllReady, Contribution, CountConflicts, CountFailures,
         Foreign, ClusterOk;
    ChildrenOwned(x, c);
    OutcomesExactly(h, x.id, ChildrenOf(x, c), x.faults);
  }

  lemma SkippedIsClean(h: HubState, c: string, x: Job)
    requires c !in x.window
    ensures StepCluster(h, c, x).1.failures == 0 && StepCluster(h, c, x).1.conflicts == 0
  {
    hide Contribution;
  }

  lemma TroublesExactly(h: HubState, clusters: seq<string>, x: Job)
    requires NoRepeats(clusters) && JobOk(x)
    ensures FanOutAll(h, clusters, x).1.conflicts == 0
            <==> forall c | c in clusters && c in x.window :: Unclaimed(h.store, c, x)
    ensures (forall c | c in clusters :: KeysAgree(ChildrenOf(x, c))) ==>
              (FanOutAll(h, clusters, x).1.failures == 0
               <==> forall c | c in clusters && c in x.window :: Smooth(h.store, c, x))
  {
    hide StepCluster, KeysAgree, ChildrenOf, Smooth, Unclaimed, ClusterOk, FanOutAll;
    var reports := Reports(h, clusters, x);
    FanOutSplits(h, clusters, x);
    TotalClean(clusters, reports, x);
    forall c | c in clusters
      ensures var r := StepCluster(h, c, x).1;
              && (r.conflicts == 0 <==> c !in x.window || Unclaimed(h.store, c, x))
              && (KeysAgree(ChildrenOf(x, c)) ==> (r.failures == 0 <==> c !in x.window || Smooth(h.store, c, x)))
    {
      assert ClusterOk(x, c);
      if c in x.window {
        StepConflictsExactly(h, c, x);
        if KeysAgree(ChildrenOf(x, c)) { StepFailuresExactly(h, c, x); }
      } else {
        SkippedIsClean(h, c, x);
      }
    }
    assert forall i :: 0 <= i < |clusters| ==> clusters[i] in clusters && reports[i] in reports;
  }

  /** A pass counts a conflict exactly if in some cluster of its window a wanted key is someone else's. */
  lemma PassConflictsExactly(p: ReplicaSet, h: HubState, inputs: Inputs)
    requires PlanOf(p, h, inputs).Some?
    ensures ChildrenReconciled(p, h, inputs).result.conflicts == 0
            <==> forall c | c in ResolutionOf(p, inputs).clusters && c in PlanOf(p, h, inputs).value.window ::
                   Unclaimed(h.store, c, JobOf(p, h, inputs))
  {
    hide PlanOf, Resolve, ApplyJob, ReconcileChildren, Unclaimed, JobOk, FanOutAll, KeysAgree;
    JobFacts(p, h, inputs);
    ReadyCounts(p, h, inputs);
    TroublesExactly(h, ResolutionOf(p, inputs).clusters, JobOf(p, h, inputs));
  }

  /** And a failure exactly if in some cluster of its window the namespace is missing, the works do not render, or a
      call fails that a child takes. */
  lemma PassFailuresExactly(p: ReplicaSet, h: HubState, inputs: Inputs)
    requires PlanOf(p, h, inputs).Some?
    requires forall c | c in ResolutionOf(p, inputs).clusters :: NamesApart(p.id, p.spec, c, inputs.resolve)
    ensures ChildrenReconciled(p, h, inputs).result.failures == 0
            <==> forall c | c in ResolutionOf(p, inputs).clusters && c in PlanOf(p, h, inputs).value.window ::
                   Smooth(h.store, c, JobOf(p, h, inputs))
  {
    hide PlanOf, Resolve, ApplyJob, ReconcileChildren, Smooth, JobOk, FanOutAll, KeysAgree, NamesApart, ChildrenOf;
    JobFacts(p, h, inputs);
    ReadyCounts(p, h, inputs);
    forall c | c in ResolutionOf(p, inputs).clusters { AgreesInJob(p, h, inputs, c); }
    TroublesExactly(h, ResolutionOf(p, inputs).clusters, JobOf(p, h, inputs));
  }

  lemma StepFailedWrite(h: HubState, c: string, x: Job, w: Write)
    requires w in StepCluster(h, c, x).0.writes - h.writes && WriteFails(w, x.faults)
    ensures StepCluster(h, c, x).1.failures > 0
  {
    hide EnsureAll, ChildrenOf, AllReady, Contribution, CountConflicts, CountFailures, WriteFails;
    FailedWriteFails(h, x.id, ChildrenOf(x, c), x.faults, w);
    CountsZero(EnsureAll(h, x.id, ChildrenOf(x, c), x.faults).1);
  }

  lemma {:induction false} FanOutFailedWrite(h: HubState, clusters: seq<string>, x: Job, w: Write)
    requires w in FanOutAll(h, clusters, x).0.writes - h.writes && WriteFails(w, x.faults)
    ensures FanOutAll(h, clusters, x).1.failures > 0
  {
    hide StepCluster, WriteFails, AddToRefs, Plus;
    var n := |clusters| - 1;
    if n >= 0 {
      var (before, t) := FanOutAll(h, clusters[..n], x);
      assert FanOutAll(h, clusters, x).1.failures == t.failures + StepCluster(before, clusters[n], x).1.failures;
      if w in before.writes {
        FanOutFailedWrite(h, clusters[..n], x, w);
      } else {
        StepFailedWrite(before, clusters[n], x, w);
      }
    }
  }

  /** A create or patch that fails is counted as a failure, keeps the pass from deleting anything, and has it
      retried. */
  lemma FailedWriteRetries(p: ReplicaSet, h: HubState, inputs: Inputs, w: Write)
    requires ReachesChildren(p, h, inputs) && !w.Delete? && WriteFails(w, inputs.faults)
    requires w in ReconcilePass(p, h, inputs).hub.writes - h.writes
    ensures ChildrenReconciled(p, h, inputs).result.failures > 0
    ensures Deleted(h, ReconcilePass(p, h, inputs).hub) == {}
    ensures ReconcilePass(p, h, inputs).requeue == Retry
  {
    hide PlanOf, Resolve, ApplyJob, ValidSpec, JobOk, FanOutAll, DeleteStale, ReconcilePass, WriteFails, Deleted;
    var clusters, window, x := ResolutionOf(p, inputs).clusters, PlanOf(p, h, inputs).value.window, JobOf(p, h, inputs);
    PassOfChildren(p, h, inputs);
    JobFacts(p, h, inputs);
    var (fanned, t) := FanOutAll(h, clusters, x);
    SweepSendsDeletes(fanned, x.id, Selected(clusters), window, t.works, x.accounts, x.faults, w);
    FanOutFailedWrite(h, clusters, x, w);
    RequeueExactly(p, h, inputs);
    FanOutWrites(h, clusters, x);
    NothingDeleted(h, fanned);
  }

  lemma NothingDeleted(h: HubState, after: HubState)
    requires forall w | w in after.writes - h.writes :: !w.Delete?
    ensures Deleted(h, after) == {}
  {
  }

  // ---------------------------------------------------------------- the next pass

  /** The status of the pass could not be written. */
  ghost predicate StatusLost(p: ReplicaSet, status: Status, faults: set<Call>) {
    status != p.status && PatchStatus in faults
  }

  lemma PlansIfReaching(p: ReplicaSet, h: HubState, inputs: Inputs)
    requires ReachesChildren(p, h, inputs)
    ensures PlanOf(p, h, inputs).Some?
  {
  }

  lemma RequeueOfChildren(p: ReplicaSet, h: HubState, inputs: Inputs)
    requires ReachesChildren(p, h, inputs)
    ensures ReconcilePass(p, h, inputs).requeue
            == ChildPass(p, h, ResolutionOf(p, inputs), PlanOf(p, h, inputs).value, inputs).requeue
  {
    hide Planning.PlanRefs, Resolve, PlanJob, ChildPass, ValidSpec;
  }

  /** A pass that got to the children is retried exactly if something failed, comes back soon exactly if cleanup is
      pending, else when the rollout or its selectors ask for it, and else not at all. */
  lemma RequeueExactly(p: ReplicaSet, h: HubState, inputs: Inputs)
    requires ReachesChildren(p, h, inputs)
    ensures var requeue, r := ReconcilePass(p, h, inputs).requeue, ChildrenReconciled(p, h, inputs).result;
            var lost := StatusLost(p, ReportedStatus(p, h, inputs), inputs.faults);
            var recheck, selector := PlanOf(p, h, inputs).value.recheck, SelectorRbacEnabled(p.spec);
            && (requeue == Retry <==> r.failed || lost)
            && (requeue == Stop <==> !r.failed && !lost && !r.pending && recheck <= 0 && !selector)
            && (!r.failed && !lost && r.pending ==> requeue == After(10))
            && (!r.failed && !lost && !r.pending && recheck > 0 ==> requeue == After(recheck))
            && (!r.failed && !lost && !r.pending && recheck <= 0 && selector ==> requeue == After(30))
  {
    hide PlanOf, ResolutionOf, ApplyJob, ReachesChildren, ReconcileChildren, FullStatus, SelectorRbacEnabled,
         ReconcilePass;
    PlansIfReaching(p, h, inputs);
    RequeueOfChildren(p, h, inputs);
    JobSelector(p, ResolutionOf(p, inputs), PlanOf(p, h, inputs).value, inputs);
  }

  /** Without failures in the clusters, cleanup is pending exactly if stale works were there that could be listed; and a
      pass fails exactly if a listing or one of its deletes does. */
  lemma CleanupExactly(h: HubState, clusters: seq<string>, cleanup: set<string>, x: Job)
    requires NoRepeats(clusters) && JobOk(x) && cleanup <= x.window && h.writes == {}
    requires FanOutAll(h, clusters, x).1.failures == 0
    ensures var r := ReconcileChildren(h, clusters, cleanup, x);
            var noStale := NoStaleWorks(h.store, clusters, cleanup, x);
            && (r.result.pending <==> ListWorks !in x.faults && !noStale)
            && (r.result.failed <==>
                  ListWorks in x.faults || (noStale && ListAccounts in x.faults)
                  || exists k | k in Deleted(h, r.hub) :: DeleteChild(k) in x.faults)
  {
    hide JobOk, FanOutAll, NoStaleWorks, StaleWorks, StaleAccounts;
    var (fanned, t) := FanOutAll(h, clusters, x);
    StaleBefore(h, clusters, cleanup, x);
    FanOutWrites(h, clusters, x);
    var works := StaleWorks(fanned.store, x.id, Selected(clusters), cleanup, t.works);
    var accounts := StaleAccounts(fanned.store, x.id, Selected(clusters), cleanup, x.accounts);
    SweptDeletes(h, fanned, works, x.faults);
    SweptDeletes(h, fanned, accounts, x.faults);
    SweptDeletes(h, fanned, {}, x.faults);
    assert DeleteAll(fanned, {}, x.faults) == fanned;
  }

  lemma SweptDeletes(h: HubState, fanned: HubState, keys: set<Key>, faults: set<Call>)
    requires h.writes == {} && forall w | w in fanned.writes :: !w.Delete?
    ensures Deleted(h, DeleteAll(fanned, keys, faults)) == keys
  {
    var after := DeleteAll(fanned, keys, faults);
    forall k | k in keys ensures k in Deleted(h, after) {
      assert Delete(k) in after.writes - h.writes;
    }
  }

  // ---------------------------------------------------------------- passes that stop early

  /** The namespace caches that a pass keeps are those of all selected clusters, exactly if it is over a live, held and
      valid set with selectors whose placements resolved. */
  lemma KeepsExactly(p: ReplicaSet, h: HubState, inputs: Inputs)
    ensures var clusters := ResolutionOf(p, inputs).clusters;
            ReconcilePass(p, h, inputs).keep
            == if !p.deleting && FINALIZER in p.finalizers && ValidSpec(p.spec) && SelectorRbacEnabled(p.spec)
               then Selected(clusters) else {}
  {
    hide PlanJob, Planning.PlanRefs, ValidSpec, SelectorRbacEnabled, ReconcileChildren, DeletePass, FullStatus,
         UnplannedStatus, ApplyJob, RefStatuses;
    var clusters := ResolutionOf(p, inputs).clusters;
    assert |clusters| == 0 ==> Selected(clusters) == {};
  }

  /** What stops a pass before it plans: an invalid spec, or a placement that cannot be read while no other selects a
      cluster. */
  ghost predicate StopsShort(p: ReplicaSet, inputs: Inputs) {
    !p.deleting && FINALIZER in p.finalizers && (!ValidSpec(p.spec) || Unplaced(p, inputs))
  }

  ghost predicate Unplaced(p: ReplicaSet, inputs: Inputs) {
    && (exists r | r in p.spec.placementRefs :: inputs.placements(r.name).None?)
    && (forall r | r in p.spec.placementRefs :: ClustersOfRef(inputs.placements, r) == {})
  }

  lemma UnplacedExactly(p: ReplicaSet, inputs: Inputs)
    ensures Unplaced(p, inputs) <==> ResolutionOf(p, inputs).failed && ResolutionOf(p, inputs).clusters == []
  {
    hide RefStatuses, ClustersOfRef;
    var refs, union := p.spec.placementRefs, UnionOf(inputs.placements, p.spec.placementRefs);
    forall c {
      NotInUnion(inputs.placements, refs, c);
    }
    assert ResolutionOf(p, inputs).clusters == [] <==> union == {};
    if union == {} {
      forall i, c | 0 <= i < |refs| ensures c !in ClustersOfRef(inputs.placements, refs[i]) {
        assert c !in union;
      }
    }
  }

  const WITHDRAWN := {PLACEMENT_RESOLVED, ACCOUNTS_READY, PERMISSIONS_APPLIED, ROLLED_OUT, READY}

  /** All that was claimed is withdrawn, for the reason given; other conditions stay. */
  ghost predicate Withdrawn(before: Conditions, after: Conditions, reason: string, generation: int) {
    && (forall k | k in WITHDRAWN ::
          k in after && after[k].status == False && after[k].reason == reason
          && after[k].observedGeneration == generation)
    && CLEANUP_BLOCKED in after && after[CLEANUP_BLOCKED].status == False
    && forall k | k !in WITHDRAWN && k != CLEANUP_BLOCKED :: Get(after, k) == Get(before, k)
  }

  lemma EarlyWithdraws(conditions: Conditions, reason: string, generation: int, now: int)
    ensures Withdrawn(conditions, EarlyReturn(conditions, reason, generation, now), reason, generation)
  {
    ConditionNamesDistinct();
  }

  /** Such a pass touches no child, withdraws every claim, and comes back only if its status could not be written. */
  lemma StopsShortExactly(p: ReplicaSet, h: HubState, inputs: Inputs)
    requires StopsShort(p, inputs)
    ensures var pass := ReconcilePass(p, h, inputs);
            var reason := if ValidSpec(p.spec) then "PlacementUnavailable" else "InvalidSpec";
            && pass.hub == h && pass.requeue in {Stop, Retry}
            && (PatchStatus !in inputs.faults ==>
                  && pass.requeue == Stop && pass.parent.status.selected == 0 && pass.parent.status.ready == 0
                  && Withdrawn(p.status.conditions, pass.parent.status.conditions, reason, p.generation))
            && (PatchStatus in inputs.faults ==>
                  pass.parent == p
                  && (pass.requeue == Stop ==>
                        Withdrawn(p.status.conditions, p.status.conditions, reason, p.generation)))
  {
    hide ValidSpec, EarlyReturn, Withdrawn, Planning.PlanRefs, PlanJob, Resolve, Unplaced;
    UnplacedExactly(p, inputs);
    EarlyWithdraws(p.status.conditions, "InvalidSpec", p.generation, inputs.now);
    EarlyWithdraws(p.status.conditions, "PlacementUnavailable", p.generation, inputs.now);
  }

  /** Applying failed; what was said of the rollout stays. */
  ghost predicate UnplannedFits(before: Status, after: Status, generation: int, selected: nat, rbac: bool) {
    && after.observedGeneration == generation && after.selected == selected
    && SaysOf(after.conditions, READY, False, "ApplyFailed") && ConditionTrue(after.conditions, PLACEMENT_RESOLVED)
    && (ConditionTrue(after.conditions, PERMISSIONS_APPLIED) <==> !rbac)
    && Get(after.conditions, ROLLED_OUT) == Get(before.conditions, ROLLED_OUT)
  }

  lemma UnplannedStatusFits(p: ReplicaSet, resolution: Resolution, now: int)
    ensures UnplannedFits(p.status, UnplannedStatus(p, resolution, now), p.generation, |resolution.clusters|,
                          RbacEnabled(p.spec))
  {
    hide RbacEnabled;
    ConditionNamesDistinct();
  }

  /** A pass that cannot plan touches no child, is retried, and says that applying failed. */
  lemma UnplannedExactly(p: ReplicaSet, h: HubState, inputs: Inputs)
    requires !p.deleting && FINALIZER in p.finalizers && !StopsShort(p, inputs) && PlanOf(p, h, inputs).None?
    ensures var pass := ReconcilePass(p, h, inputs);
            && pass.hub == h && pass.requeue == Retry
            && (PatchStatus in inputs.faults ==> pass.parent == p)
            && (PatchStatus !in inputs.faults ==>
                  UnplannedFits(p.status, pass.parent.status, p.generation, |ResolutionOf(p, inputs).clusters|,
                                RbacEnabled(p.spec)))
  {
    hide ValidSpec, Planning.PlanRefs, PlanJob, Resolve, RbacEnabled, Unplaced, UnplannedFits, UnplannedStatus;
    UnplacedExactly(p, inputs);
    UnplannedStatusFits(p, ResolutionOf(p, inputs), inputs.now);
  }

  // ---------------------------------------------------------------- a deleted set

  /** Without failing calls a pass over a deleted set waits exactly as long as a child of the set is listed, and says so
      in its status; then it stops. */
  lemma DeletionWaitsExactly(p: ReplicaSet, h: HubState, inputs: Inputs)
    requires p.deleting && inputs.faults == {}
    ensures var pass := ReconcilePass(p, h, inputs);
            && (pass.requeue == After(10) <==> OwnedOf(h.store, p.id) != {})
            && (pass.requeue == Stop <==> OwnedOf(h.store, p.id) == {})
            && (OwnedOf(h.store, p.id) != {} ==>
                  && ConditionTrue(pass.parent.status.conditions, CLEANUP_BLOCKED)
                  && READY in pass.parent.status.conditions && pass.parent.status.conditions[READY].status == False)
  {
    hide DeletePass, OwnedOf, ResolvedPass, ValidSpec;
    CleanedUpExactly(h, p.id, inputs.faults);
    NoDeleteErrors(h, p.id);
    ConditionNamesDistinct();
  }

  lemma NoDeleteErrors(h: HubState, id: SetId)
    ensures !DeletePass(h, id, {}).1.DeleteError?
  {
    hide OwnedBySet, DeleteAll;
  }

  /** A deletion never gets stuck: as long as the finalizer is there the set comes back, and as long as children are
      listed it comes back later only if its status says that it waits. */
  lemma DeletionComesBack(p: ReplicaSet, h: HubState, inputs: Inputs)
    requires p.deleting
    ensures var pass := ReconcilePass(p, h, inputs);
            && (FINALIZER in pass.parent.finalizers ==> pass.requeue != Stop)
            && (pass.requeue.After? ==> ConditionTrue(pass.parent.status.conditions, CLEANUP_BLOCKED))
  {
    hide DeletePass, ResolvedPass, ValidSpec;
    ConditionNamesDistinct();
  }

  /** When a delete or a listing fails, the pass is retried and changes nothing of the set. */
  lemma DeletionErrorRetries(p: ReplicaSet, h: HubState, inputs: Inputs, k: Key)
    requires p.deleting
    requires ListWorks in inputs.faults
             || (Delete(k) in ReconcilePass(p, h, inputs).hub.writes - h.writes && DeleteChild(k) in inputs.faults)
    ensures ReconcilePass(p, h, inputs).requeue == Retry && ReconcilePass(p, h, inputs).parent == p
  {
    hide ResolvedPass, ValidSpec, DeletePass, WaitStatus;
    FailedDeleteIsError(h, p.id, inputs.faults, k);
  }

  lemma FailedDeleteIsError(h: HubState, id: SetId, faults: set<Call>, k: Key)
    requires ListWorks in faults
             || (Delete(k) in DeletePass(h, id, faults).0.writes - h.writes && DeleteChild(k) in faults)
    ensures DeletePass(h, id, faults).1.DeleteError?
  {
    hide OwnedBySet;
  }
}
