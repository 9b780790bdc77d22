/** What one whole pass guarantees, whatever the hub, the placements and the SDK's answers are. */
module PassProperties {
  import opened Model
  import Names
  import opened Metadata
  import opened Children
  import Rbac
  import opened Hub
  import opened FanOut
  import opened Conservation
  import opened Cleanup
  import opened Convergence
  import Observation
  import opened Rollout
  import opened Planning
  import opened StatusReport
  import opened Reconciler

  // ---------------------------------------------------------------- the parts of a pass

  function ResolutionOf(p: ReplicaSet, inputs: Inputs): Resolution {
    Resolve(p, inputs.placements, inputs.now)
  }

  function PlanOf(p: ReplicaSet, h: HubState, inputs: Inputs): Option<Plan> {
    var resolution := ResolutionOf(p, inputs);
    PlanRefs(h.store, PlanJob(p, resolution, inputs), p, p.spec.placementRefs, inputs)
  }

  /** The pass gets as far as the children: the set is live, held by its finalizer and valid, something resolved and
      planning worked. */
  predicate ReachesChildren(p: ReplicaSet, h: HubState, inputs: Inputs) {
    && !p.deleting && FINALIZER in p.finalizers && ValidSpec(p.spec)
    && !(ResolutionOf(p, inputs).failed && |ResolutionOf(p, inputs).clusters| == 0)
    && PlanOf(p, h, inputs).Some?
  }

  function JobOf(p: ReplicaSet, h: HubState, inputs: Inputs): Job
    requires PlanOf(p, h, inputs).Some?
  {
    ApplyJob(p, ResolutionOf(p, inputs), PlanOf(p, h, inputs).value, inputs)
  }

  function ChildrenReconciled(p: ReplicaSet, h: HubState, inputs: Inputs): Reconciled
    requires PlanOf(p, h, inputs).Some?
  {
    ReconcileChildren(h, ResolutionOf(p, inputs).clusters, PlanOf(p, h, inputs).value.window, JobOf(p, h, inputs))
  }

  function ReportedStatus(p: ReplicaSet, h: HubState, inputs: Inputs): Status
    requires PlanOf(p, h, inputs).Some?
  {
    var r := ChildrenReconciled(p, h, inputs);
    FullStatus(p, ResolutionOf(p, inputs), PlanOf(p, h, inputs).value, JobOf(p, h, inputs).selector, r.tally, r.result,
               inputs.now)
  }

  lemma PassOfChildren(p: ReplicaSet, h: HubState, inputs: Inputs)
    requires ReachesChildren(p, h, inputs)
    ensures var pass := ReconcilePass(p, h, inputs);
            pass.hub == ChildrenReconciled(p, h, inputs).hub
                && pass.parent == PatchedStatus(p, ReportedStatus(p, h, inputs), inputs.faults)
  {
    hide ReconcileChildren, FullStatus, ApplyJob, PlanJob, PlanRefs, Resolve, ValidSpec;
  }

  /** Every other pass over a live set leaves the children alone. */
  lemma PassWithoutChildren(p: ReplicaSet, h: HubState, inputs: Inputs)
    requires !p.deleting && !ReachesChildren(p, h, inputs)
    ensures ReconcilePass(p, h, inputs).hub == h
  {
    hide PlanJob, PlanRefs, Resolve, ValidSpec, ChildPass;
  }

  lemma JobFields(p: ReplicaSet, resolution: Resolution, plan: Plan, inputs: Inputs)
    ensures var x := ApplyJob(p, resolution, plan, inputs);
            x.id == p.id && x.window == plan.window && x.statuses == plan.statuses && x.faults == inputs.faults
                && x.refs == resolution.refs
    ensures PlanJob(p, resolution, inputs).id == p.id
  {
    hide SelectorRbacEnabled, DesiredAccountNames, DesiredWorkNames, Rbac.DesiredSlices, AccessChildren, BuildAccount,
         SliceWorks;
  }

  lemma JobFacts(p: ReplicaSet, h: HubState, inputs: Inputs)
    requires PlanOf(p, h, inputs).Some?
    ensures var x := JobOf(p, h, inputs);
            JobOk(x) && x.id == p.id && x.window == PlanOf(p, h, inputs).value.window
                && x.statuses == PlanOf(p, h, inputs).value.statuses
            && x.faults == inputs.faults && x.refs == ResolutionOf(p, inputs).refs
                && NoRepeats(ResolutionOf(p, inputs).clusters)
  {
    hide PlanJob, PlanRefs, JobOk, ValidSpec, JobFor;
    var plan := PlanOf(p, h, inputs).value;
    JobFields(p, ResolutionOf(p, inputs), plan, inputs);
    JobForOk(p.id, p.spec, ResolutionOf(p, inputs).refs, plan.window, plan.statuses, inputs.resolve, inputs.faults);
    Names.AscendingDistinct(ResolutionOf(p, inputs).clusters);
  }

  lemma {:induction false} SortedLength(s: set<string>)
    ensures |Names.SortedList(s)| == |s|
    decreases |s|
  {
    if s != {} {
      var m := Names.SortedList(s)[0];
      assert m in Names.SortedList(s);
      SortedLength(s - {m});
    }
  }

  lemma PlanFacts(p: ReplicaSet, h: HubState, inputs: Inputs)
    requires SdkContract(inputs.sdk) && PlanOf(p, h, inputs).Some?
    ensures var plan, clusters := PlanOf(p, h, inputs).value, ResolutionOf(p, inputs).clusters;
            && PlanOk(plan, h.store, PlanJob(p, ResolutionOf(p, inputs), inputs), Selected(clusters))
            && |clusters| == |plan.statuses|
  {
    hide PlanJob, PlanRefs, PlanOk, SdkContract, Names.Ascending;
    var resolution := ResolutionOf(p, inputs);
    var union := UnionOf(inputs.placements, p.spec.placementRefs);
    PlanRefsOk(h.store, PlanJob(p, resolution, inputs), p, p.spec.placementRefs, inputs);
    SortedLength(union);
    assert Selected(resolution.clusters) == union;
    PlanOkKeys(PlanOf(p, h, inputs).value, h.store, PlanJob(p, resolution, inputs), union);
  }

  lemma PlanOkKeys(plan: Plan, store: Store, x: Job, selected: set<string>)
    requires PlanOk(plan, store, x, selected)
    ensures |plan.statuses| == |selected|
  {
    assert |plan.statuses| == |plan.statuses.Keys|;
  }

  // ---------------------------------------------------------------- ready

  lemma {:induction false} TotalReady(clusters: seq<string>, reports: seq<Report>, x: Job)
    requires |clusters| == |reports|
    ensures var t := Total(clusters, reports, x);
            && t.ready <= |clusters| && t.accessReady <= |clusters|
            && (t.ready == |clusters| <==> forall r | r in reports :: r.ready)
  {
    hide AddToRefs, Plus, RefsOf;
    var n := |clusters| - 1;
    if n >= 0 {
      TotalReady(clusters[..n], reports[..n], x);
      assert forall r :: r in reports <==> r in reports[..n] || r == reports[n];
    }
  }

  lemma ReadyCounts(p: ReplicaSet, h: HubState, inputs: Inputs)
    requires PlanOf(p, h, inputs).Some?
    ensures var r := ChildrenReconciled(p, h, inputs);
            && r.tally == FanOutAll(h, ResolutionOf(p, inputs).clusters, JobOf(p, h, inputs)).1
            && r.result.ready == r.tally.ready <= |ResolutionOf(p, inputs).clusters|
            && r.tally.accessReady <= |ResolutionOf(p, inputs).clusters|
            && r.result.conflicts == r.tally.conflicts && r.result.failures == r.tally.failures
  {
    hide ApplyJob, PlanJob, PlanRefs, Resolve, JobOk, StepCluster, DeleteStale;
    var clusters, x := ResolutionOf(p, inputs).clusters, JobOf(p, h, inputs);
    JobFacts(p, h, inputs);
    FanOutSplits(h, clusters, x);
    TotalReady(clusters, Reports(h, clusters, x), x);
  }

  lemma AgreesInJob(p: ReplicaSet, h: HubState, inputs: Inputs, c: string)
    requires PlanOf(p, h, inputs).Some? && NamesApart(p.id, p.spec, c, inputs.resolve)
    ensures KeysAgree(ChildrenOf(JobOf(p, h, inputs), c))
  {
    hide PlanRefs, Resolve, JobFor, DigestsApart, TemplateFits, KeysAgree, ChildrenOf, PlanJob;
    var plan := PlanOf(p, h, inputs).value;
    JobForAgrees(p.id, p.spec, ResolutionOf(p, inputs).refs, plan.window, plan.statuses, inputs.resolve,
                 inputs.faults, c);
  }

  lemma WorksAgreeInJob(p: ReplicaSet, h: HubState, inputs: Inputs, c: string)
    requires PlanOf(p, h, inputs).Some? && DigestsApart(p.id, p.spec, c, inputs.resolve)
    ensures WorksAgree(ChildrenOf(JobOf(p, h, inputs), c))
  {
    hide PlanRefs, Resolve, JobFor, DigestsApart, WorksAgree, ChildrenOf, PlanJob;
    var plan := PlanOf(p, h, inputs).value;
    JobForWorksAgree(p.id, p.spec, ResolutionOf(p, inputs).refs, plan.window, plan.statuses, inputs.resolve,
                     inputs.faults, c);
  }

  /** Never more clusters are counted ready than are selected. */
  lemma ReadyWithinSelected(p: ReplicaSet, h: HubState, inputs: Inputs)
    requires ReachesChildren(p, h, inputs)
    ensures var s := ReportedStatus(p, h, inputs); s.ready <= s.selected
    ensures ReportedStatus(p, h, inputs).access.Some?
            ==> ReportedStatus(p, h, inputs).access.value.ready <= ReportedStatus(p, h, inputs).selected
  {
    hide ApplyJob, PlanJob, PlanRefs, ValidSpec, ReconcileChildren;
    ReadyCounts(p, h, inputs);
  }

  ghost predicate ReadyInPlace(store: Store, id: SetId, d: Desired) {
    InPlace(store, id, d) && ChildReady(d.key.kind, store[d.key])
  }

  /** What it means for a cluster that it counts as ready. */
  ghost predicate ClusterReady(before: Store, after: Store, cluster: string, x: Job, planned: Job) {
    if cluster in x.window then
      !x.failed(cluster)
      && forall d | d in ChildrenOf(x, cluster) :: ReadyInPlace(after, x.id, d)
    else !planned.failed(cluster)
         && forall d | d in ChildrenOf(planned, cluster) :: Observation.Settled(before, x.id, d, planned.faults)
  }

  /** A child that was ensured is in place, and ready exactly if the outcome was. */
  lemma EnsuredReady(h: HubState, ds: seq<Desired>, x: Job, i: nat)
    requires i < |ds| && KeyAgrees(ds, i) && forall d | d in ds :: Owner(d.labels) == Some(x.id)
    requires EnsureAll(h, x.id, ds, x.faults).1[i].Done?
    ensures ReadyInPlace(EnsureAll(h, x.id, ds, x.faults).0.store, x.id, ds[i])
            <==> ChildReady(ds[i].key.kind, EnsureAll(h, x.id, ds, x.faults).1[i].child)
  {
    hide Owner, ChildMatches, AccountReady, WorkAvailable, Ensure, KeyAgrees;
    var after := EnsureAll(h, x.id, ds, x.faults).0.store;
    EnsuredAsAlone(h, x.id, ds, x.faults, i);
    EnsureDone(h, x.id, ds[i], x.faults);
    assert Get(after, ds[i].key) == Get(Ensure(h, x.id, ds[i], x.faults).0.store, ds[i].key);
  }

  lemma OneAgrees(ds: seq<Desired>, i: nat)
    requires i < |ds|
    ensures KeysAgree(ds) ==> KeyAgrees(ds, i)
    ensures WorksAgree(ds) && ds[i].key.kind.WorkKind? ==> KeyAgrees(ds, i)
  {
  }

  /** A step without trouble has ensured every child. */
  lemma StepDone(h: HubState, cluster: string, x: Job)
    requires cluster in x.window
    requires var report := StepCluster(h, cluster, x).1; report.conflicts == 0 && report.failures == 0
    ensures GetClusterNamespace(cluster) !in x.faults && !x.failed(cluster)
    ensures forall i | 0 <= i < |ChildrenOf(x, cluster)| ::
              EnsureAll(h, x.id, ChildrenOf(x, cluster), x.faults).1[i].Done?
  {
    hide EnsureAll, ChildrenOf, AllReady, Contribution;
    var outcomes := EnsureAll(h, x.id, ChildrenOf(x, cluster), x.faults).1;
    AllDone(outcomes);
    forall i | 0 <= i < |outcomes| ensures outcomes[i].Done? {
      assert outcomes[i] in outcomes;
    }
  }

  lemma StepReports(h: HubState, cluster: string, x: Job)
    requires cluster in x.window && GetClusterNamespace(cluster) !in x.faults
    ensures var (after, outcomes) := EnsureAll(h, x.id, ChildrenOf(x, cluster), x.faults);
            && StepCluster(h, cluster, x).0 == after
            && StepCluster(h, cluster, x).1.ready == (!x.failed(cluster) && AllReady(ChildrenOf(x, cluster), outcomes))
  {
    hide EnsureAll, ChildrenOf, AllReady, Contribution, CountConflicts, CountFailures;
  }

  lemma ReadyInWindow(h: HubState, cluster: string, x: Job)
    requires ClusterOk(x, cluster) && KeysAgree(ChildrenOf(x, cluster)) && cluster in x.window
    requires StepCluster(h, cluster, x).1.ready
    ensures var after := StepCluster(h, cluster, x).0.store;
            !x.failed(cluster)
            && forall d | d in ChildrenOf(x, cluster) :: ReadyInPlace(after, x.id, d)
  {
    hide Owner, Contribution, ReadyInPlace, EnsureAll, KeysAgree, KeyAgrees, ChildrenOf, ChildReady, CountConflicts,
         CountFailures;
    var ds := ChildrenOf(x, cluster);
    var (after, outcomes) := EnsureAll(h, x.id, ds, x.faults);
    forall i | 0 <= i < |ds| ensures ReadyInPlace(after.store, x.id, ds[i]) {
      assert OutcomeReady(ds[i], outcomes[i]) && ds[i] in ds;
      OneAgrees(ds, i);
      EnsuredReady(h, ds, x, i);
    }
  }

  /** In a step without trouble the cluster counts as ready exactly if all its children are in place and ready. */
  lemma ReadyStepExactly(h: HubState, cluster: string, x: Job)
    requires ClusterOk(x, cluster) && KeysAgree(ChildrenOf(x, cluster)) && cluster in x.window
    requires var report := StepCluster(h, cluster, x).1; report.conflicts == 0 && report.failures == 0
    ensures StepCluster(h, cluster, x).1.ready <==>
            forall d | d in ChildrenOf(x, cluster) :: ReadyInPlace(StepCluster(h, cluster, x).0.store, x.id, d)
  {
    hide Owner, ReadyInPlace, EnsureAll, KeysAgree, KeyAgrees, ChildrenOf, ChildReady, StepCluster, ClusterOk;
    var ds := ChildrenOf(x, cluster);
    var (after, outcomes) := EnsureAll(h, x.id, ds, x.faults);
    StepDone(h, cluster, x);
    StepReports(h, cluster, x);
    ChildrenOwned(x, cluster);
    forall i | 0 <= i < |ds| ensures OutcomeReady(ds[i], outcomes[i]) <==> ReadyInPlace(after.store, x.id, ds[i]) {
      assert ds[i] in ds;
      OneAgrees(ds, i);
      EnsuredReady(h, ds, x, i);
    }
  }

  /** What a step leaves of a child in its cluster is what the pass leaves. */
  lemma StepIsKept(h: HubState, clusters: seq<string>, cleanup: set<string>, x: Job, c: string, d: Desired)
    requires NoRepeats(clusters) && JobOk(x) && cleanup <= x.window && c in clusters && d in ChildrenOf(x, c)
    requires FanOutAll(h, clusters, x).1.failures == 0
    ensures Get(ReconcileChildren(h, clusters, cleanup, x).hub.store, d.key)
            == Get(StepCluster(h, c, x).0.store, d.key)
  {
    hide Owner, DeleteStale, StepCluster, ChildrenOf, ClusterOk, Has;
    var (fanned, t) := FanOutAll(h, clusters, x);
    assert ClusterOk(x, c);
    ChildrenOwned(x, c);
    FanOutSplits(h, clusters, x);
    FanOutLists(h, clusters, cleanup, x);
    assert Agree(fanned.store, Expected(h, clusters, x, c), c);
    SweepKeepsDesired(fanned, clusters, cleanup, x, t.works, c, d);
  }

  lemma WindowReady(h: HubState, clusters: seq<string>, cleanup: set<string>, x: Job, c: string)
    requires NoRepeats(clusters) && JobOk(x) && cleanup <= x.window && c in clusters && c in x.window
             && KeysAgree(ChildrenOf(x, c))
    requires FanOutAll(h, clusters, x).1.failures == 0 && StepCluster(h, c, x).1.ready
    ensures !x.failed(c) && forall d | d in ChildrenOf(x, c) ::
            ReadyInPlace(ReconcileChildren(h, clusters, cleanup, x).hub.store, x.id, d)
  {
    hide Owner, ReadyInPlace, ReconcileChildren, StepCluster, ChildrenOf, KeysAgree, ClusterOk, FanOutAll;
    assert ClusterOk(x, c);
    ReadyInWindow(h, c, x);
    forall d | d in ChildrenOf(x, c)
      ensures ReadyInPlace(ReconcileChildren(h, clusters, cleanup, x).hub.store, x.id, d)
    {
      StepIsKept(h, clusters, cleanup, x, c, d);
      ReadyMoves(StepCluster(h, c, x).0.store, ReconcileChildren(h, clusters, cleanup, x).hub.store, x.id, d);
    }
  }

  lemma SameReady(a: Store, b: Store, id: SetId, d: Desired)
    requires Get(a, d.key) == Get(b, d.key)
    ensures ReadyInPlace(a, id, d) <==> ReadyInPlace(b, id, d)
  {
  }

  lemma ReadyMoves(a: Store, b: Store, id: SetId, d: Desired)
    requires ReadyInPlace(a, id, d) && Get(a, d.key) == Get(b, d.key)
    ensures ReadyInPlace(b, id, d)
  {
  }

  lemma OutsideReady(h: HubState, x: Job, planned: Job, plan: Plan, selected: set<string>, c: string)
    requires PlanOk(plan, h.store, planned, selected) && x.window == plan.window && x.statuses == plan.statuses
    requires c !in x.window && StepCluster(h, c, x).1.ready
    ensures !planned.failed(c) && forall d | d in ChildrenOf(planned, c) ::
            Observation.Settled(h.store, planned.id, d, planned.faults)
  {
    hide Observation.ObserveCluster, Observation.Settled, Contribution, ApplyCluster;
    SucceededWasObserved(plan, h.store, planned, selected, c);
    Observation.ObservationIsConjunction(h.store, planned, c);
  }

  lemma AllReported(h: HubState, clusters: seq<string>, x: Job)
    requires NoRepeats(clusters) && JobOk(x) && FanOutAll(h, clusters, x).1.ready >= |clusters|
    ensures forall c | c in clusters :: StepCluster(h, c, x).1.ready
  {
    hide StepCluster, JobOk;
    FanOutSplits(h, clusters, x);
    TotalReady(clusters, Reports(h, clusters, x), x);
    forall c | c in clusters ensures StepCluster(h, c, x).1.ready {
      var i :| 0 <= i < |clusters| && clusters[i] == c;
      assert Reports(h, clusters, x)[i] in Reports(h, clusters, x);
    }
  }

  /** A pass that reports Ready met no trouble, left nothing to clean up, and has every selected cluster ready:
      all children in place and ready inside the window, observed as settled outside it. */
  lemma ReadySound(p: ReplicaSet, h: HubState, inputs: Inputs)
    requires SdkContract(inputs.sdk) && ReachesChildren(p, h, inputs)
    requires forall c | c in ResolutionOf(p, inputs).clusters :: NamesApart(p.id, p.spec, c, inputs.resolve)
    requires ConditionTrue(ReportedStatus(p, h, inputs).conditions, READY)
    ensures var r := ChildrenReconciled(p, h, inputs);
            && CleanPass(r) && r.result.failures == 0 && r.result.ready == |ResolutionOf(p, inputs).clusters|
            && forall c | c in ResolutionOf(p, inputs).clusters ::
                 ClusterReady(h.store, r.hub.store, c, JobOf(p, h, inputs), PlanJob(p, ResolutionOf(p, inputs), inputs))
  {
    hide ApplyJob, PlanJob, PlanRefs, ValidSpec, JobOk, StepCluster, NamesApart, FullStatus, Resolve, SdkContract;
    var resolution, plan, x := ResolutionOf(p, inputs), PlanOf(p, h, inputs).value, JobOf(p, h, inputs);
    var r := ChildrenReconciled(p, h, inputs);
    JobFacts(p, h, inputs);
    PlanFacts(p, h, inputs);
    ReadyExactly(p, resolution, plan, x.selector, r.tally, r.result, inputs.now);
    ReadyCounts(p, h, inputs);
    AllReported(h, resolution.clusters, x);
    forall c | c in resolution.clusters
      ensures ClusterReady(h.store, r.hub.store, c, x, PlanJob(p, resolution, inputs))
    {
      if c in x.window {
        AgreesInJob(p, h, inputs, c);
        WindowReady(h, resolution.clusters, plan.window, x, c);
      } else {
        OutsideReady(h, x, PlanJob(p, resolution, inputs), plan, Selected(resolution.clusters), c);
        JobFields(p, resolution, plan, inputs);
      }
    }
  }

  /** What a selected cluster must be for Ready: with all children in place and ready, or planned as Succeeded. */
  ghost predicate CountsReady(after: Store, cluster: string, x: Job) {
    if cluster in x.window then forall d | d in ChildrenOf(x, cluster) :: ReadyInPlace(after, x.id, d)
    else Started(x, cluster)
  }

  lemma CountedReadyExactly(h: HubState, clusters: seq<string>, cleanup: set<string>, x: Job, c: string)
    requires NoRepeats(clusters) && JobOk(x) && cleanup <= x.window && c in clusters && KeysAgree(ChildrenOf(x, c))
    requires var t := FanOutAll(h, clusters, x).1; t.conflicts == 0 && t.failures == 0
    ensures StepCluster(h, c, x).1.ready
            <==> CountsReady(ReconcileChildren(h, clusters, cleanup, x).hub.store, c, x)
  {
    hide Owner, ReadyInPlace, ReconcileChildren, KeysAgree, ChildrenOf, StepCluster, ClusterOk, FanOutAll;
    assert ClusterOk(x, c);
    if c in x.window {
      var after := ReconcileChildren(h, clusters, cleanup, x).hub.store;
      StepsClean(h, clusters, x, c);
      ReadyStepExactly(h, c, x);
      forall d | d in ChildrenOf(x, c)
        ensures ReadyInPlace(after, x.id, d) <==> ReadyInPlace(StepCluster(h, c, x).0.store, x.id, d)
      {
        StepIsKept(h, clusters, cleanup, x, c, d);
        SameReady(StepCluster(h, c, x).0.store, after, x.id, d);
      }
    } else {
      SkippedReady(h, c, x);
    }
  }

  lemma SkippedReady(h: HubState, c: string, x: Job)
    requires c !in x.window
    ensures StepCluster(h, c, x).1.ready == Started(x, c)
  {
    hide Contribution;
  }

  lemma AllCountedReady(h: HubState, clusters: seq<string>, cleanup: set<string>, x: Job)
    requires NoRepeats(clusters) && JobOk(x) && cleanup <= x.window
    requires forall c | c in clusters :: KeysAgree(ChildrenOf(x, c))
    requires var t := FanOutAll(h, clusters, x).1; t.conflicts == 0 && t.failures == 0
    ensures FanOutAll(h, clusters, x).1.ready >= |clusters| <==>
            forall c | c in clusters :: CountsReady(ReconcileChildren(h, clusters, cleanup, x).hub.store, c, x)
  {
    hide ReconcileChildren, KeysAgree, ChildrenOf, StepCluster, ClusterOk, CountsReady;
    var reports := Reports(h, clusters, x);
    FanOutSplits(h, clusters, x);
    TotalReady(clusters, reports, x);
    forall i | 0 <= i < |clusters|
      ensures reports[i].ready <==> CountsReady(ReconcileChildren(h, clusters, cleanup, x).hub.store, clusters[i], x)
      ensures clusters[i] in clusters && reports[i] in reports
    {
      CountedReadyExactly(h, clusters, cleanup, x, clusters[i]);
    }
  }

  /** A pass reports Ready exactly if it met no trouble, left nothing to clean up, and every selected cluster has all
      its children in place and ready, or was not due and is planned as Succeeded. */
  lemma ReadyReported(p: ReplicaSet, h: HubState, inputs: Inputs)
    requires ReachesChildren(p, h, inputs)
    requires forall c | c in ResolutionOf(p, inputs).clusters :: NamesApart(p.id, p.spec, c, inputs.resolve)
    ensures var r := ChildrenReconciled(p, h, inputs);
            ConditionTrue(ReportedStatus(p, h, inputs).conditions, READY)
            <==> CleanPass(r) && r.result.failures == 0
                 && forall c | c in ResolutionOf(p, inputs).clusters :: CountsReady(r.hub.store, c, JobOf(p, h, inputs))
  {
    hide ApplyJob, PlanJob, PlanRefs, ValidSpec, JobOk, FanOutAll, NamesApart, FullStatus, Resolve, ReconcileChildren,
         CountsReady, KeysAgree;
    var clusters, x, r := ResolutionOf(p, inputs).clusters, JobOf(p, h, inputs), ChildrenReconciled(p, h, inputs);
    JobFacts(p, h, inputs);
    ReadyExactly(p, ResolutionOf(p, inputs), PlanOf(p, h, inputs).value, x.selector, r.tally, r.result, inputs.now);
    ReadyCounts(p, h, inputs);
    if CleanPass(r) && r.result.failures == 0 {
      forall c | c in clusters { AgreesInJob(p, h, inputs, c); }
      AllCountedReady(h, clusters, PlanOf(p, h, inputs).value.window, x);
    }
  }

  // ---------------------------------------------------------------- rolled out

  /** There is a cluster, nothing is to be rolled out or has timed out, and every cluster is planned as Succeeded. */
  ghost predicate PlanComplete(plan: Plan, clusters: seq<string>) {
    && clusters != [] && plan.window == {} && plan.timedOut == {}
    && forall c | c in clusters :: c in plan.statuses && plan.statuses[c].state == RolloutState.Succeeded
  }

  lemma CompletedPlan(plan: Plan, clusters: seq<string>, previous: Conditions, generation: int, now: int)
    requires plan.window <= plan.statuses.Keys && plan.timedOut <= plan.statuses.Keys
    requires plan.statuses.Keys == Selected(clusters) && |clusters| == |plan.statuses|
    ensures IsCompleted(Summarize(|clusters|, plan.window, plan.timedOut, plan.statuses, previous, generation, now))
            <==> PlanComplete(plan, clusters)
  {
    hide Summarize;
    CompletedExactly(plan.window, plan.timedOut, plan.statuses, previous, generation, now);
    assert forall c :: c in plan.statuses <==> c in Selected(clusters);
    assert plan.statuses == map[] <==> |plan.statuses| == 0;
  }

  /** A pass reports the placement rolled out exactly if its plan is complete, whatever else it met. */
  lemma RolledOutReported(p: ReplicaSet, h: HubState, inputs: Inputs)
    requires SdkContract(inputs.sdk) && PlanOf(p, h, inputs).Some?
    ensures var plan, clusters := PlanOf(p, h, inputs).value, ResolutionOf(p, inputs).clusters;
            ConditionTrue(ReportedStatus(p, h, inputs).conditions, ROLLED_OUT) <==> PlanComplete(plan, clusters)
  {
    hide JobOf, PlanOf, ResolutionOf, FullStatus, SdkContract, ReconcileChildren, Summarize, IsCompleted, ValidSpec,
         PlanComplete, PlanJob, StatusOf;
    var resolution, plan, r := ResolutionOf(p, inputs), PlanOf(p, h, inputs).value, ChildrenReconciled(p, h, inputs);
    PlanFacts(p, h, inputs);
    RolledOutExactly(p, resolution, plan, JobOf(p, h, inputs).selector, r.tally, r.result, inputs.now);
    CompletedPlan(plan, resolution.clusters, RolloutConditions(p.status.rollout), p.generation, inputs.now);
  }

  /** A pass that itself reports the placement rolled out counts every selected cluster ready, ensures nothing, and
      deletes only in clusters that are no longer selected. */
  lemma RolledOutImpliesReady(p: ReplicaSet, h: HubState, inputs: Inputs)
    requires SdkContract(inputs.sdk) && ReachesChildren(p, h, inputs) && h.writes == {}
    requires ConditionTrue(ReportedStatus(p, h, inputs).conditions, ROLLED_OUT)
    ensures 0 < ReportedStatus(p, h, inputs).selected == ReportedStatus(p, h, inputs).ready
    ensures forall w | w in ChildrenReconciled(p, h, inputs).hub.writes ::
            w.Delete? && w.key.cluster !in ResolutionOf(p, inputs).clusters
  {
    hide ApplyJob, PlanJob, PlanRefs, ValidSpec, Resolve, SdkContract, JobOk, StepCluster, DeleteStale;
    var clusters, x, r := ResolutionOf(p, inputs).clusters, JobOf(p, h, inputs), ChildrenReconciled(p, h, inputs);
    JobFacts(p, h, inputs);
    RolledOutReported(p, h, inputs);
    ReadyCounts(p, h, inputs);
    StartedAllReady(h, clusters, x);
    CleanupFootprint(h, clusters, x.window, x);
    forall w | w in r.hub.writes ensures w.Delete? && w.key.cluster !in clusters {
      assert !w.Delete? ==> w.key in Ensured(h, r.hub);
    }
  }

  lemma StartedAllReady(h: HubState, clusters: seq<string>, x: Job)
    requires NoRepeats(clusters) && JobOk(x) && x.window == {} && forall c | c in clusters :: Started(x, c)
    ensures FanOutAll(h, clusters, x).1.ready == |clusters|
  {
    hide JobOk, Started, Contribution;
    FanOutSplits(h, clusters, x);
    TotalReady(clusters, Reports(h, clusters, x), x);
    forall i | 0 <= i < |clusters| ensures Reports(h, clusters, x)[i].ready { assert clusters[i] in clusters; }
  }

  // ---------------------------------------------------------------- summaries

  function RefNames(refs: seq<PlacementRef>): (r: seq<string>)
    ensures |r| == |refs|
  {
    seq(|refs|, i requires 0 <= i < |refs| => refs[i].name)
  }

  lemma JobRefs(p: ReplicaSet, h: HubState, inputs: Inputs)
    requires PlanOf(p, h, inputs).Some? && UniqueRefs(p.spec.placementRefs)
    ensures var x := JobOf(p, h, inputs);
            && NoRepeatedRefs(x)
            && (forall c :: RefsOf(x, c) == RefsSelecting(inputs.placements, p.spec.placementRefs, c))
  {
    hide PlanJob, PlanRefs, ApplyJob, ClustersOfRef, RefsSelecting, UniqueRefs;
    var x, refs := JobOf(p, h, inputs), p.spec.placementRefs;
    JobFields(p, ResolutionOf(p, inputs), PlanOf(p, h, inputs).value, inputs);
    forall c ensures RefsOf(x, c) == RefsSelecting(inputs.placements, refs, c) && NoRepeats(RefsOf(x, c)) {
      UnselectedHasNoRefs(inputs.placements, refs, c);
      RefsSelectingExactly(inputs.placements, refs, c);
    }
    assert forall c | c in x.refs :: x.refs[c] == RefsOf(x, c);
  }

  lemma {:induction false} SelectingAll(placements: Placements, refs: seq<PlacementRef>, x: Job, c: string, n: nat)
    requires UniqueRefs(refs) && n <= |refs| && RefsOf(x, c) == RefsSelecting(placements, refs, c)
    ensures Selecting(RefNames(refs)[..n], x, c) == |RefsSelecting(placements, refs[..n], c)|
  {
    hide ClustersOfRef, UniqueRefs;
    if n > 0 {
      SelectingAll(placements, refs, x, c, n - 1);
      RefsSelectingExactly(placements, refs, c);
      assert RefNames(refs)[..n][..n - 1] == RefNames(refs)[..n - 1];
      assert refs[..n][..n - 1] == refs[..n - 1];
    }
  }

  /** Each cluster is weighed by the number of its own refs. */
  function SumByRefs(clusters: seq<string>, reports: seq<Report>, x: Job): Summary
    requires |clusters| == |reports|
  {
    if |clusters| == 0 then ZERO
    else
      var n := |clusters| - 1;
      Plus(SumByRefs(clusters[..n], reports[..n], x), Scaled(|RefsOf(x, clusters[n])|, Share(reports[n])))
  }

  lemma {:induction false} WeightedByRefs(placements: Placements, refs: seq<PlacementRef>, clusters: seq<string>,
                                          reports: seq<Report>, x: Job)
    requires |clusters| == |reports| && UniqueRefs(refs) && forall c ::
             RefsOf(x, c) == RefsSelecting(placements, refs, c)
    ensures SumOverRefs(RefNames(refs), clusters, reports, x) == SumByRefs(clusters, reports, x)
  {
    hide UniqueRefs, RefsOf, RefsSelecting, Plus, Scaled, Share;
    var n, names := |clusters| - 1, RefNames(refs);
    RefsShareEachCluster(names, clusters, reports, x);
    if n >= 0 {
      RefsShareEachCluster(names, clusters[..n], reports[..n], x);
      WeightedByRefs(placements, refs, clusters[..n], reports[..n], x);
      SelectingAll(placements, refs, x, clusters[n], |refs|);
      assert names[..|refs|] == names && refs[..|refs|] == refs;
    }
  }

  /** Global and per-placement summaries add up over the reports of the clusters, and stay within bounds. */
  ghost predicate Conserved(s: Status, refs: seq<PlacementRef>, clusters: seq<string>, reports: seq<Report>, x: Job)
    requires |clusters| == |reports|
  {
    && GetOr(s.summary) == SumShares(reports) && Sound(GetOr(s.summary))
    && |s.placements| == |refs|
    && (forall i :: 0 <= i < |refs| ==>
          s.placements[i].name == refs[i].name
          && GetOr(s.placements[i].summary) == SumSelected(clusters, reports, x, refs[i].name)
          && Sound(GetOr(s.placements[i].summary)))
    && SumOverRefs(RefNames(refs), clusters, reports, x) == SumByRefs(clusters, reports, x)
  }

  ghost predicate Reported(s: Status, refs: seq<PlacementRef>, t: Tally) {
    && s.summary == t.summary && |s.placements| == |refs|
    && (forall i :: 0 <= i < |refs| ==>
          s.placements[i].name == refs[i].name && GetOr(s.placements[i].summary) == OfRef(t.byRef, refs[i].name))
  }

  lemma ReportedSummaries(p: ReplicaSet, h: HubState, inputs: Inputs)
    requires PlanOf(p, h, inputs).Some?
    ensures Reported(ReportedStatus(p, h, inputs), p.spec.placementRefs,
                     FanOutAll(h, ResolutionOf(p, inputs).clusters, JobOf(p, h, inputs)).1)
  {
    hide PlanJob, PlanRefs, ApplyJob, FanOutAll, ReconcileChildren, ClustersOfRef, PlanSummary, ApplyChildResult;
    ReadyCounts(p, h, inputs);
  }

  /** The summaries in the status of a pass: conserved over clusters and over placement refs, and within bounds. */
  lemma PassSummaries(p: ReplicaSet, h: HubState, inputs: Inputs)
    requires PlanOf(p, h, inputs).Some? && UniqueRefs(p.spec.placementRefs)
    ensures var clusters, x := ResolutionOf(p, inputs).clusters, JobOf(p, h, inputs);
            Conserved(ReportedStatus(p, h, inputs), p.spec.placementRefs, clusters, Reports(h, clusters, x), x)
  {
    hide PlanOf, ResolutionOf, JobOf, ReportedStatus, JobOk, UniqueRefs, NoRepeatedRefs, Sound, SumShares, SumSelected,
         SumOverRefs, SumByRefs, RefsOf, RefsSelecting, Reports;
    var clusters, x, refs := ResolutionOf(p, inputs).clusters, JobOf(p, h, inputs), p.spec.placementRefs;
    JobFacts(p, h, inputs);
    JobRefs(p, h, inputs);
    ReportedSummaries(p, h, inputs);
    WeightedByRefs(inputs.placements, refs, clusters, Reports(h, clusters, x), x);
    SummariesConserved(h, clusters, x, "");
    forall i | 0 <= i < |refs| { SummariesConserved(h, clusters, x, refs[i].name); }
  }

  /** The works of a counted cluster are in place and available: inside the window afterwards, outside it all along. */
  ghost predicate WorksAvailable(before: Store, after: Store, cluster: string, x: Job) {
    if cluster in x.window then forall w | w in x.works(cluster) :: ReadyInPlace(after, x.id, w.work)
    else Started(x, cluster) ==> forall w | w in x.works(cluster) :: ReadyInPlace(before, x.id, w.work)
  }

  /** The works of a cluster that is only read could all be read. */
  ghost predicate WorksRead(cluster: string, x: Job) {
    cluster !in x.window && Started(x, cluster)
    ==> forall w | w in x.works(cluster) :: GetChild(w.work.key) !in x.faults
  }

  ghost predicate FullShare(s: Summary) {
    s.available == s.desiredTotal
  }

  lemma AppliedShare(h: HubState, cluster: string, x: Job)
    requires x.rbac && cluster in x.window && GetClusterNamespace(cluster) !in x.faults
    ensures var outcomes := EnsureAll(h, x.id, ChildrenOf(x, cluster), x.faults);
            && Share(StepCluster(h, cluster, x).1)
               == Plus(Summary(|x.works(cluster)|, 0, 0, 0, 0, 0, 0),
                       SumWorks(x.works(cluster), outcomes.1[|x.access(cluster)| + 1..]))
            && StepCluster(h, cluster, x).0 == outcomes.0
  {
    hide EnsureAll, SumWorks, AllReady, Plus;
  }

  lemma AppliedOutcomes(h: HubState, cluster: string, x: Job)
    requires ClusterOk(x, cluster) && x.rbac && cluster in x.window && GetClusterNamespace(cluster) !in x.faults
    ensures var outcomes := EnsureAll(h, x.id, ChildrenOf(x, cluster), x.faults).1[|x.access(cluster)| + 1..];
            FullShare(Share(StepCluster(h, cluster, x).1))
            <==> forall i | 0 <= i < |outcomes| :: outcomes[i].Done? && WorkAvailable(outcomes[i].child)
  {
    hide EnsureAll, SumWorks, StepCluster, ClusterOk, WorkAvailable, Sound, Carried, Share;
    var works, n := x.works(cluster), |x.access(cluster)| + 1;
    var outcomes := EnsureAll(h, x.id, ChildrenOf(x, cluster), x.faults).1;
    AppliedShare(h, cluster, x);
    AppliedCarried(h, cluster, x);
    SumWorksSound(works, outcomes[n..]);
    AllAvailable(works, outcomes[n..]);
  }

  lemma ChildrenOwned(x: Job, cluster: string)
    requires ClusterOk(x, cluster)
    ensures forall d | d in ChildrenOf(x, cluster) :: Owner(d.labels) == Some(x.id) && d.key.cluster == cluster
  {
    hide Owner, ChildrenOf;
  }

  lemma WorkAt(x: Job, cluster: string, i: nat)
    requires ClusterOk(x, cluster) && i < |x.works(cluster)|
    ensures var ds, n := ChildrenOf(x, cluster), |x.access(cluster)| + 1;
            n + i < |ds| && ds[n + i] == x.works(cluster)[i].work && ds[n + i].key.kind.WorkKind?
                && Owner(ds[n + i].labels) == Some(x.id)
  {
    hide Owner;
    var d := ChildrenOf(x, cluster)[|x.access(cluster)| + 1 + i];
    assert d == x.works(cluster)[i].work && x.works(cluster)[i] in x.works(cluster) && d in ChildrenOf(x, cluster);
  }

  /** In a step without trouble the share is full exactly if all works are in place and available. */
  lemma AppliedFull(h: HubState, cluster: string, x: Job)
    requires ClusterOk(x, cluster) && WorksAgree(ChildrenOf(x, cluster)) && x.rbac && cluster in x.window
    requires var report := StepCluster(h, cluster, x).1; report.conflicts == 0 && report.failures == 0
    ensures FullShare(Share(StepCluster(h, cluster, x).1)) <==>
            forall w | w in x.works(cluster) :: ReadyInPlace(StepCluster(h, cluster, x).0.store, x.id, w.work)
  {
    hide Owner, ReadyInPlace, EnsureAll, WorksAgree, KeyAgrees, StepCluster, FullShare, Share, WorkAvailable, ClusterOk,
         ChildrenOf;
    var ds, works, n := ChildrenOf(x, cluster), x.works(cluster), |x.access(cluster)| + 1;
    var (after, outcomes) := EnsureAll(h, x.id, ds, x.faults);
    StepDone(h, cluster, x);
    StepReports(h, cluster, x);
    AppliedOutcomes(h, cluster, x);
    ChildrenOwned(x, cluster);
    WorksCounted(x, cluster);
    forall i | 0 <= i < |works|
      ensures outcomes[n..][i].Done?
              && (WorkAvailable(outcomes[n..][i].child) <==> ReadyInPlace(after.store, x.id, works[i].work))
    {
      WorkAt(x, cluster, i);
      assert outcomes[n..][i] == outcomes[n + i];
      OneAgrees(ds, n + i);
      EnsuredReady(h, ds, x, n + i);
    }
  }

  lemma WorksCounted(x: Job, cluster: string)
    ensures |ChildrenOf(x, cluster)| == |x.access(cluster)| + 1 + |x.works(cluster)|
  {
  }

  /** Where works are only read, the share is full exactly if all are in place, available and could be read. */
  lemma ReadFull(h: HubState, cluster: string, x: Job)
    requires ClusterOk(x, cluster) && x.rbac && cluster !in x.window && Started(x, cluster)
    ensures FullShare(Share(StepCluster(h, cluster, x).1)) <==>
            WorksRead(cluster, x) && forall w | w in x.works(cluster) :: ReadyInPlace(h.store, x.id, w.work)
  {
    hide Owner, OwnedBySet, SumWorks, ChildMatches, ChildrenOf, Has;
    var works := x.works(cluster);
    var seen := ReadWorks(h.store, x.id, works, x.faults);
    ReadsCarried(h, cluster, x);
    SumWorksSound(works, seen);
    AllAvailable(works, seen);
    forall i | 0 <= i < |works|
      ensures seen[i].Done? && WorkAvailable(seen[i].child)
              <==> GetChild(works[i].work.key) !in x.faults && ReadyInPlace(h.store, x.id, works[i].work)
    {
      assert works[i] in works;
      if works[i].work.key in h.store { OwnedByOwner(x.id, h.store[works[i].work.key].labels); }
    }
  }

  lemma NothingCounted(h: HubState, cluster: string, x: Job)
    requires cluster !in x.window && !Started(x, cluster)
    ensures FullShare(Share(StepCluster(h, cluster, x).1))
  {
  }

  /** A fan-out without trouble is one in which no step had any. */
  lemma StepsClean(h: HubState, clusters: seq<string>, x: Job, c: string)
    requires NoRepeats(clusters) && JobOk(x) && c in clusters
    requires var t := FanOutAll(h, clusters, x).1; t.conflicts == 0 && t.failures == 0
    ensures var report := StepCluster(h, c, x).1;
            report.conflicts == 0 && report.failures == 0 && report in Reports(h, clusters, x)
  {
    hide StepCluster, JobOk;
    FanOutSplits(h, clusters, x);
    TotalClean(clusters, Reports(h, clusters, x), x);
    var i :| 0 <= i < |clusters| && clusters[i] == c;
    assert Reports(h, clusters, x)[i] in Reports(h, clusters, x);
  }

  lemma FullInPass(h: HubState, clusters: seq<string>, cleanup: set<string>, x: Job, c: string)
    requires NoRepeats(clusters) && JobOk(x) && cleanup <= x.window && x.rbac && c in clusters
    requires var t := FanOutAll(h, clusters, x).1; t.conflicts == 0 && t.failures == 0
    requires WorksAgree(ChildrenOf(x, c))
    ensures FullShare(Share(StepCluster(h, c, x).1)) <==>
            WorksRead(c, x) && WorksAvailable(h.store, ReconcileChildren(h, clusters, cleanup, x).hub.store, c, x)
  {
    hide Owner, ReadyInPlace, ReconcileChildren, WorksAgree, ChildrenOf, Share, FullShare, StepCluster, ClusterOk,
         FanOutAll;
    assert ClusterOk(x, c);
    if c in x.window {
      var after := ReconcileChildren(h, clusters, cleanup, x).hub.store;
      StepsClean(h, clusters, x, c);
      AppliedFull(h, c, x);
      forall w | w in x.works(c)
        ensures ReadyInPlace(after, x.id, w.work) <==> ReadyInPlace(StepCluster(h, c, x).0.store, x.id, w.work)
      {
        WorkIsChild(x, c, w);
        StepIsKept(h, clusters, cleanup, x, c, w.work);
        SameReady(StepCluster(h, c, x).0.store, after, x.id, w.work);
      }
    } else if Started(x, c) {
      ReadFull(h, c, x);
    } else {
      NothingCounted(h, c, x);
    }
  }

  lemma WorkIsChild(x: Job, c: string, w: SliceWork)
    requires ClusterOk(x, c) && w in x.works(c)
    ensures w.work in ChildrenOf(x, c) && w.work.key.cluster == c
  {
    hide Owner;
    var i :| 0 <= i < |x.works(c)| && x.works(c)[i] == w;
    assert ChildrenOf(x, c)[|x.access(c)| + 1 + i] == w.work;
  }

  /** All shares are full exactly if all counted works are in place, available and could be read. */
  lemma SumFull(h: HubState, clusters: seq<string>, cleanup: set<string>, x: Job)
    requires NoRepeats(clusters) && JobOk(x) && cleanup <= x.window && x.rbac
    requires var t := FanOutAll(h, clusters, x).1; t.conflicts == 0 && t.failures == 0
    requires forall c | c in clusters :: WorksAgree(ChildrenOf(x, c))
    ensures FullShare(SumShares(Reports(h, clusters, x))) <==>
            forall c | c in clusters ::
              WorksRead(c, x) && WorksAvailable(h.store, ReconcileChildren(h, clusters, cleanup, x).hub.store, c, x)
  {
    hide ReconcileChildren, WorksAgree, ChildrenOf, Share, StepCluster, ClusterOk, FanOutAll, WorksAvailable, WorksRead,
         SumShares;
    var reports := Reports(h, clusters, x);
    ReportsSound(h, clusters, x);
    SharesFull(reports);
    forall c | c in clusters
      ensures StepCluster(h, c, x).1 in reports
      ensures FullShare(Share(StepCluster(h, c, x).1)) <==>
              WorksRead(c, x) && WorksAvailable(h.store, ReconcileChildren(h, clusters, cleanup, x).hub.store, c, x)
    {
      StepsClean(h, clusters, x, c);
      FullInPass(h, clusters, cleanup, x, c);
    }
    forall i | 0 <= i < |reports| ensures reports[i] == StepCluster(h, clusters[i], x).1 && clusters[i] in clusters {
    }
  }

  ghost predicate CleanResult(r: ChildResult) {
    !r.failed && r.conflicts == 0 && r.failures == 0
  }

  /** A pass over a set with RBAC reports permissions applied exactly if it met no trouble and the works of every
      counted cluster are all in place, available and could be read. */
  lemma PermissionsReported(p: ReplicaSet, h: HubState, inputs: Inputs)
    requires ReachesChildren(p, h, inputs) && UniqueRefs(p.spec.placementRefs) && RbacEnabled(p.spec)
    requires forall c | c in ResolutionOf(p, inputs).clusters :: DigestsApart(p.id, p.spec, c, inputs.resolve)
    ensures var r, x := ChildrenReconciled(p, h, inputs), JobOf(p, h, inputs);
            ConditionTrue(ReportedStatus(p, h, inputs).conditions, PERMISSIONS_APPLIED)
            <==> CleanResult(r.result)
                 && forall c | c in ResolutionOf(p, inputs).clusters ::
                      WorksRead(c, x) && WorksAvailable(h.store, r.hub.store, c, x)
  {
    hide PlanJob, PlanRefs, ApplyJob, ReconcileChildren, UniqueRefs, Resolve, ValidSpec, FullStatus, DigestsApart,
         WorksAvailable, WorksRead, JobOk, WorksAgree, Reports, SumShares;
    var clusters, x, r := ResolutionOf(p, inputs).clusters, JobOf(p, h, inputs), ChildrenReconciled(p, h, inputs);
    PassSummaries(p, h, inputs);
    ReportedSummaries(p, h, inputs);
    ReadyCounts(p, h, inputs);
    PermissionsExactly(p, ResolutionOf(p, inputs), PlanOf(p, h, inputs).value, x.selector, r.tally, r.result,
                       inputs.now);
    JobFacts(p, h, inputs);
    JobRbac(p, h, inputs);
    ReportsSound(h, clusters, x);
    SharesFull(Reports(h, clusters, x));
    if CleanResult(r.result) {
      forall c | c in clusters { WorksAgreeInJob(p, h, inputs, c); }
      SumFull(h, clusters, PlanOf(p, h, inputs).value.window, x);
    }
  }

  /** With permissions reported applied, the pass met no trouble and the works of every counted cluster are all in
      place and available. */
  lemma PermissionsSound(p: ReplicaSet, h: HubState, inputs: Inputs)
    requires ReachesChildren(p, h, inputs) && UniqueRefs(p.spec.placementRefs) && RbacEnabled(p.spec)
    requires forall c | c in ResolutionOf(p, inputs).clusters :: DigestsApart(p.id, p.spec, c, inputs.resolve)
    requires ConditionTrue(ReportedStatus(p, h, inputs).conditions, PERMISSIONS_APPLIED)
    ensures var r := ChildrenReconciled(p, h, inputs);
            && !r.result.failed && r.result.conflicts == 0 && r.result.failures == 0
            && forall c | c in ResolutionOf(p, inputs).clusters ::
                WorksAvailable(h.store, r.hub.store, c, JobOf(p, h, inputs))
  {
    hide PlanOf, JobOf, ReconcileChildren, UniqueRefs, ResolutionOf, ReachesChildren, ReportedStatus, DigestsApart,
         WorksAvailable, WorksRead;
    PermissionsReported(p, h, inputs);
  }

  lemma JobRbac(p: ReplicaSet, h: HubState, inputs: Inputs)
    requires PlanOf(p, h, inputs).Some?
    ensures JobOf(p, h, inputs).rbac == RbacEnabled(p.spec)
  {
    hide PlanJob, PlanRefs, Resolve, SelectorRbacEnabled, DesiredAccountNames, DesiredWorkNames, Rbac.DesiredSlices,
         AccessChildren, BuildAccount, SliceWorks;
  }

  // ---------------------------------------------------------------- the other passes

  /** No other pass ever turns Ready or PlacementRolledOut true. */
  lemma OnlyFullPassesReport(p: ReplicaSet, h: HubState, inputs: Inputs)
    requires !ReachesChildren(p, h, inputs)
    ensures var after := ReconcilePass(p, h, inputs).parent.status.conditions;
            (ConditionTrue(after, READY) ==> ConditionTrue(p.status.conditions, READY))
            && (ConditionTrue(after, ROLLED_OUT) ==> ConditionTrue(p.status.conditions, ROLLED_OUT))
  {
    hide PlanJob, PlanRefs, Resolve, ValidSpec, ChildPass, DeletePass, RbacEnabled;
    ConditionNamesDistinct();
  }

  /** Namespace caches are kept only in selected clusters of a live set whose grants use selectors. */
  lemma KeepsSelectedOnly(p: ReplicaSet, h: HubState, inputs: Inputs)
    ensures var keep := ReconcilePass(p, h, inputs).keep;
            keep <= Selected(ResolutionOf(p, inputs).clusters)
                && (keep != {} ==> !p.deleting && SelectorRbacEnabled(p.spec))
  {
    hide PlanJob, PlanRefs, Resolve, ValidSpec, SelectorRbacEnabled, ReconcileChildren, DeletePass, FullStatus,
         UnplannedStatus, ApplyJob;
  }

  predicate NothingOutstanding(r: ChildResult, plan: Plan, spec: Spec) {
    !r.failed && !r.pending && plan.recheck <= 0 && !SelectorRbacEnabled(spec)
  }

  lemma JobSelector(p: ReplicaSet, resolution: Resolution, plan: Plan, inputs: Inputs)
    ensures ApplyJob(p, resolution, plan, inputs).selector == SelectorRbacEnabled(p.spec)
  {
    hide SelectorRbacEnabled, DesiredAccountNames, DesiredWorkNames, Rbac.DesiredSlices, AccessChildren, BuildAccount,
         SliceWorks;
  }

  lemma ChildPassStops(p: ReplicaSet, h: HubState, resolution: Resolution, plan: Plan, inputs: Inputs)
    requires ChildPass(p, h, resolution, plan, inputs).requeue == Stop
    ensures NothingOutstanding(ReconcileChildren(h, resolution.clusters, plan.window,
                                                 ApplyJob(p, resolution, plan, inputs)).result, plan, p.spec)
  {
    hide SelectorRbacEnabled, ReconcileChildren, FullStatus, ApplyJob, Keep;
    JobSelector(p, resolution, plan, inputs);
  }

  /** A pass over a live set asks for no further one only when nothing is outstanding: nothing failed, no cleanup is
      pending, no recheck is due and no selector needs watching. */
  lemma StopsOnlyWhenSettled(p: ReplicaSet, h: HubState, inputs: Inputs)
    requires ReachesChildren(p, h, inputs)
    ensures ReconcilePass(p, h, inputs).requeue == Stop
            ==> NothingOutstanding(ChildrenReconciled(p, h, inputs).result, PlanOf(p, h, inputs).value, p.spec)
  {
    hide PlanJob, PlanRefs, Resolve, ValidSpec, ReconcileChildren, ChildPass, ApplyJob, NothingOutstanding;
    if ReconcilePass(p, h, inputs).requeue == Stop {
      ChildPassStops(p, h, ResolutionOf(p, inputs), PlanOf(p, h, inputs).value, inputs);
    }
  }

  /** A pass over a deleted set asks for no further one only when none of its children is left. */
  lemma DeletionStopsOnlyWhenDone(p: ReplicaSet, h: HubState, inputs: Inputs)
    requires p.deleting && DeletedPass(p, h, inputs).requeue == Stop
    ensures forall k | k in h.store :: Owner(h.store[k].labels) != Some(p.id)
  {
    hide Owner, OwnedBySet, Owned, WaitStatus, DeleteFails, DeleteAll;
    OwnedKeys(h.store, p.id, WorkKind);
    OwnedKeys(h.store, p.id, AccountKind);
    forall k | k in h.store ensures Owner(h.store[k].labels) != Some(p.id) {
      assert k !in Owned(h.store, p.id, k.kind);
    }
  }
}
