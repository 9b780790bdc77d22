/** The other half of what passes report: when all is well they say so, and what their counts then mean. */
module Reporting {
  import opened Model
  import Metadata
  import opened Children
  import opened Hub
  import opened FanOut
  import opened Conservation
  import opened Cleanup
  import opened Convergence
  import opened Rollout
  import opened Planning
  import opened StatusReport
  import opened Reconciler
  import opened PassProperties
  import PassEffects

  // ---------------------------------------------------------------- Ready and RemotePermissionsApplied

  /** All that a set wants in its selected clusters is in place and ready. */
  ghost predicate AllReadyInPlace(store: Store, clusters: seq<string>, x: Job) {
    forall c, d | c in clusters && d in ChildrenOf(x, c) :: ReadyInPlace(store, x.id, d)
  }

  lemma StepReady(h: HubState, c: string, x: Job)
    requires c in x.window && x.faults == {} && !x.failed(c)
    requires forall d | d in ChildrenOf(x, c) :: ReadyInPlace(h.store, x.id, d)
    ensures StepCluster(h, c, x).1.ready
  {
    hide EnsureAll, Metadata.Owner, ChildMatches, Contribution, CountConflicts, CountFailures, AccountReady,
         WorkConditionTrue, ChildrenOf;
    var ds := ChildrenOf(x, c);
    forall i | 0 <= i < |ds| ensures InPlace(h.store, x.id, ds[i]) { assert ReadyInPlace(h.store, x.id, ds[i]); }
    EnsureAllInPlace(h, x.id, ds, x.faults);
    var outcomes := EnsureAll(h, x.id, ds, x.faults).1;
    forall i | 0 <= i < |ds| ensures OutcomeReady(ds[i], outcomes[i]) { assert ds[i] in ds; }
  }

  lemma StepAvailable(h: HubState, c: string, x: Job)
    requires ClusterOk(x, c) && c in x.window && x.faults == {} && x.rbac
    requires forall d | d in ChildrenOf(x, c) :: ReadyInPlace(h.store, x.id, d)
    ensures Share(StepCluster(h, c, x).1).available == Share(StepCluster(h, c, x).1).desiredTotal
  {
    hide EnsureAll, Metadata.Owner, ChildMatches, StepCluster, WorkConditionTrue, ClusterOk, SumWorks, Share;
    var ds, works, n := ChildrenOf(x, c), x.works(c), |x.access(c)| + 1;
    var outcomes := EnsureAll(h, x.id, ds, x.faults).1;
    AppliedShare(h, c, x);
    AppliedCarried(h, c, x);
    SumWorksSound(works, outcomes[n..]);
    forall i | 0 <= i < |ds| ensures InPlace(h.store, x.id, ds[i]) { assert ReadyInPlace(h.store, x.id, ds[i]); }
    EnsureAllInPlace(h, x.id, ds, x.faults);
    forall i | 0 <= i < |works| ensures outcomes[n..][i].Done? && WorkAvailable(outcomes[n..][i].child) {
      WorkAt(x, c, i);
      assert ds[n + i] in ds && outcomes[n..][i] == outcomes[n + i];
    }
    AllAvailable(works, outcomes[n..]);
  }

  lemma AllCounted(h: HubState, clusters: seq<string>, x: Job)
    requires NoRepeats(clusters) && JobOk(x) && x.faults == {} && AllReadyInPlace(h.store, clusters, x)
    requires forall c | c in clusters :: c in x.window && !x.failed(c)
    ensures FanOutAll(h, clusters, x).1.ready == |clusters|
    ensures x.rbac ==> SumShares(Reports(h, clusters, x)).available == SumShares(Reports(h, clusters, x)).desiredTotal
  {
    hide StepCluster, ClusterOk, ChildrenOf, ReadyInPlace, Share;
    var reports := Reports(h, clusters, x);
    FanOutSplits(h, clusters, x);
    forall i | 0 <= i < |reports|
      ensures reports[i].ready && (x.rbac ==> Share(reports[i]).available == Share(reports[i]).desiredTotal)
    {
      assert clusters[i] in clusters && ClusterOk(x, clusters[i]);
      StepReady(h, clusters[i], x);
      if x.rbac { StepAvailable(h, clusters[i], x); }
    }
    TotalReady(clusters, reports, x);
    ReportsSound(h, clusters, x);
    SharesFull(reports);
  }

  lemma UntroubledPassCounts(p: ReplicaSet, h: HubState, inputs: Inputs)
    requires ReachesChildren(p, h, inputs) && PassEffects.Untroubled(p, h, inputs)
    requires AllReadyInPlace(h.store, ResolutionOf(p, inputs).clusters, JobOf(p, h, inputs))
    requires !PassEffects.UnwantedLeft(h.store, p, inputs, JobOf(p, h, inputs))
    ensures var r, clusters := ChildrenReconciled(p, h, inputs), ResolutionOf(p, inputs).clusters;
            CleanPass(r) && r.result.failures == 0 && r.result.ready == |clusters|
    ensures var s := SumShares(Reports(h, ResolutionOf(p, inputs).clusters, JobOf(p, h, inputs)));
            JobOf(p, h, inputs).rbac ==> s.available == s.desiredTotal
  {
    hide PlanJob, PlanRefs, ApplyJob, ReconcileChildren, Resolve, ValidSpec, NamesApart, JobOk, KeysAgree, Reports,
         SumShares, AllReadyInPlace, NoForeign, UnwantedWork, ChildrenOf;
    var clusters, plan, x := ResolutionOf(p, inputs).clusters, PlanOf(p, h, inputs).value, JobOf(p, h, inputs);
    JobFacts(p, h, inputs);
    forall c | c in clusters { AgreesInJob(p, h, inputs, c); }
    UntroubledReconcile(h, clusters, plan.window, x);
    AllCounted(h, clusters, x);
    ReadyCounts(p, h, inputs);
    UntroubledFanOut(h, clusters, x);
  }

  /** An undisturbed pass that finds every wanted child in place and ready, and no work that is not wanted, is clean and
      reports Ready and RemotePermissionsApplied. */
  lemma UntroubledPassReports(p: ReplicaSet, h: HubState, inputs: Inputs)
    requires ReachesChildren(p, h, inputs) && PassEffects.Untroubled(p, h, inputs) && UniqueRefs(p.spec.placementRefs)
    requires AllReadyInPlace(h.store, ResolutionOf(p, inputs).clusters, JobOf(p, h, inputs))
    requires !PassEffects.UnwantedLeft(h.store, p, inputs, JobOf(p, h, inputs))
    ensures CleanPass(ChildrenReconciled(p, h, inputs))
    ensures ConditionTrue(ReportedStatus(p, h, inputs).conditions, READY)
    ensures ConditionTrue(ReportedStatus(p, h, inputs).conditions, PERMISSIONS_APPLIED)
  {
    hide PlanOf, JobOf, ResolutionOf, ReconcileChildren, ValidSpec, FullStatus, Reports, SumShares, UniqueRefs,
         AllReadyInPlace, PassEffects.UnwantedLeft, PassEffects.Untroubled, Sound, RbacEnabled;
    var plan, x, r := PlanOf(p, h, inputs).value, JobOf(p, h, inputs), ChildrenReconciled(p, h, inputs);
    UntroubledPassCounts(p, h, inputs);
    ReadyCounts(p, h, inputs);
    PassSummaries(p, h, inputs);
    ReportedSummaries(p, h, inputs);
    JobRbac(p, h, inputs);
    ReadyExactly(p, ResolutionOf(p, inputs), plan, x.selector, r.tally, r.result, inputs.now);
    PermissionsExactly(p, ResolutionOf(p, inputs), plan, x.selector, r.tally, r.result, inputs.now);
  }

  /** A work of a cluster outside the window is after the pass what it was before. */
  lemma SkippedStays(h: HubState, clusters: seq<string>, cleanup: set<string>, x: Job, c: string, w: SliceWork)
    requires NoRepeats(clusters) && JobOk(x) && cleanup <= x.window && c in clusters && c !in x.window
    requires w in x.works(c) && FanOutAll(h, clusters, x).1.failures == 0
    ensures ReadyInPlace(ReconcileChildren(h, clusters, cleanup, x).hub.store, x.id, w.work)
            <==> ReadyInPlace(h.store, x.id, w.work)
  {
    hide ReadyInPlace, ReconcileChildren, ChildrenOf, ClusterOk, FanOutAll;
    assert ClusterOk(x, c);
    WorkIsChild(x, c, w);
    StepIsKept(h, clusters, cleanup, x, c, w.work);
    SkippedStep(h, c, x);
    SameReady(h.store, ReconcileChildren(h, clusters, cleanup, x).hub.store, x.id, w.work);
  }

  lemma SkippedStep(h: HubState, c: string, x: Job)
    requires c !in x.window
    ensures StepCluster(h, c, x).0 == h
  {
    hide Contribution;
  }

  /** All works of the selected clusters are in place and available. */
  ghost predicate AllWorksReady(store: Store, clusters: seq<string>, x: Job) {
    forall c, w | c in clusters && w in x.works(c) :: ReadyInPlace(store, x.id, w.work)
  }

  /** So are those of the selected clusters that wait, outside the window and not Succeeded. */
  ghost predicate WaitingWorksReady(store: Store, clusters: seq<string>, x: Job) {
    forall c, w | c in clusters && c !in x.window && !Started(x, c) && w in x.works(c) ::
      ReadyInPlace(store, x.id, w.work)
  }

  lemma CountedAndWaiting(h: HubState, clusters: seq<string>, cleanup: set<string>, x: Job)
    requires NoRepeats(clusters) && JobOk(x) && cleanup <= x.window && FanOutAll(h, clusters, x).1.failures == 0
    requires forall c | c in clusters ::
               WorksAvailable(h.store, ReconcileChildren(h, clusters, cleanup, x).hub.store, c, x)
    ensures AllWorksReady(ReconcileChildren(h, clusters, cleanup, x).hub.store, clusters, x)
            <==> WaitingWorksReady(h.store, clusters, x)
  {
    hide ReadyInPlace, ReconcileChildren, JobOk, FanOutAll, Started;
    var after := ReconcileChildren(h, clusters, cleanup, x).hub.store;
    forall c, w | c in clusters && c !in x.window && w in x.works(c)
      ensures ReadyInPlace(after, x.id, w.work) <==> ReadyInPlace(h.store, x.id, w.work)
    {
      SkippedStays(h, clusters, cleanup, x, c, w);
    }
    forall c, w | c in clusters && c in x.window && w in x.works(c) ensures ReadyInPlace(after, x.id, w.work) {
      assert WorksAvailable(h.store, after, c, x);
    }
    forall c, w | c in clusters && c !in x.window && Started(x, c) && w in x.works(c)
      ensures ReadyInPlace(h.store, x.id, w.work)
    {
      assert WorksAvailable(h.store, after, c, x);
    }
  }

  /** When permissions are reported applied, the works of all selected clusters are in place and available as the pass
      ends if and only if those of the waiting clusters were so before: the condition does not look at them. */
  lemma PermissionsEverywhereExactly(p: ReplicaSet, h: HubState, inputs: Inputs)
    requires ReachesChildren(p, h, inputs) && UniqueRefs(p.spec.placementRefs) && RbacEnabled(p.spec)
    requires forall c | c in ResolutionOf(p, inputs).clusters :: DigestsApart(p.id, p.spec, c, inputs.resolve)
    requires ConditionTrue(ReportedStatus(p, h, inputs).conditions, PERMISSIONS_APPLIED)
    ensures var clusters, x := ResolutionOf(p, inputs).clusters, JobOf(p, h, inputs);
            AllWorksReady(ReconcilePass(p, h, inputs).hub.store, clusters, x)
            <==> WaitingWorksReady(h.store, clusters, x)
  {
    hide PlanJob, PlanRefs, ApplyJob, ReconcileChildren, UniqueRefs, Resolve, ValidSpec, DigestsApart, JobOk,
         ReconcilePass, ReportedStatus, WorksAvailable, AllWorksReady, WaitingWorksReady;
    PassOfChildren(p, h, inputs);
    JobFacts(p, h, inputs);
    PermissionsSound(p, h, inputs);
    ReadyCounts(p, h, inputs);
    CountedAndWaiting(h, ResolutionOf(p, inputs).clusters, PlanOf(p, h, inputs).value.window, JobOf(p, h, inputs));
  }

  lemma NoneWaiting(store: Store, clusters: seq<string>, x: Job)
    requires forall c | c in clusters :: c in x.window || Started(x, c)
    ensures WaitingWorksReady(store, clusters, x)
  {
  }

  /** In particular so when every selected cluster is in the window or already succeeded. */
  lemma PermissionsEverywhere(p: ReplicaSet, h: HubState, inputs: Inputs)
    requires ReachesChildren(p, h, inputs) && UniqueRefs(p.spec.placementRefs) && RbacEnabled(p.spec)
    requires forall c | c in ResolutionOf(p, inputs).clusters ::
               DigestsApart(p.id, p.spec, c, inputs.resolve)
               && (c in PlanOf(p, h, inputs).value.window || Started(JobOf(p, h, inputs), c))
    requires ConditionTrue(ReportedStatus(p, h, inputs).conditions, PERMISSIONS_APPLIED)
    ensures forall c, w | c in ResolutionOf(p, inputs).clusters && w in JobOf(p, h, inputs).works(c) ::
              ReadyInPlace(ReconcilePass(p, h, inputs).hub.store, p.id, w.work)
  {
    hide PlanJob, PlanRefs, ApplyJob, ReconcileChildren, UniqueRefs, Resolve, ValidSpec, DigestsApart, JobOk,
         ReadyInPlace, ReconcilePass, ReportedStatus, WaitingWorksReady;
    JobFacts(p, h, inputs);
    PermissionsEverywhereExactly(p, h, inputs);
    NoneWaiting(h.store, ResolutionOf(p, inputs).clusters, JobOf(p, h, inputs));
  }

  // ---------------------------------------------------------------- rollout counts

  /** The counts of the set-wide rollout summary: they exceed the number of selected clusters by the clusters in both
      windows, less those that wait outside both. */
  lemma PassCounts(p: ReplicaSet, h: HubState, inputs: Inputs)
    requires SdkContract(inputs.sdk) && PlanOf(p, h, inputs).Some?
    ensures var plan, total := PlanOf(p, h, inputs).value, |ResolutionOf(p, inputs).clusters|;
            var s := PlanSummary(plan, p, total, inputs.now);
            s.total == total
            && s.updating + s.succeeded + s.failed + s.timedOut
               == total + |plan.window * plan.timedOut| - |Unaccounted(plan.statuses, plan.window, plan.timedOut)|
  {
    hide PlanRefs, PlanJob, Resolve, SdkContract, Unaccounted;
    var plan := PlanOf(p, h, inputs).value;
    PlanFacts(p, h, inputs);
    CountIdentity(|ResolutionOf(p, inputs).clusters|, plan.window, plan.timedOut, plan.statuses,
                  RolloutConditions(p.status.rollout), p.generation, inputs.now);
  }
}
