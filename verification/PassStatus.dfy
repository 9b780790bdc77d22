/** What the status of a pass says, field by field, from what the pass found. */
module PassStatus {
  import opened Model
  import opened Children
  import opened Hub
  import opened FanOut
  import opened Cleanup
  import opened Rollout
  import opened Planning
  import opened StatusReport
  import opened Reconciler
  import opened PassProperties
  import Metadata

  // ---------------------------------------------------------------- rollout counts

  lemma SelectedIsUnion(p: ReplicaSet, inputs: Inputs)
    ensures var union := UnionOf(inputs.placements, p.spec.placementRefs);
            Selected(ResolutionOf(p, inputs).clusters) == union && |ResolutionOf(p, inputs).clusters| == |union|
  {
    hide RefStatuses, RefsSelecting;
    SortedLength(UnionOf(inputs.placements, p.spec.placementRefs));
  }

  lemma StatusParts(p: ReplicaSet, h: HubState, inputs: Inputs)
    requires PlanOf(p, h, inputs).Some?
    ensures var s, plan, total := ReportedStatus(p, h, inputs), PlanOf(p, h, inputs).value,
                                  |ResolutionOf(p, inputs).clusters|;
            && s.observedGeneration == p.generation && s.selected == total
            && s.rollout == Some(PlanSummary(plan, p, total, inputs.now))
            && s.placements == PlacementReports(ResolutionOf(p, inputs).placements, plan,
                                                ChildrenReconciled(p, h, inputs).tally.byRef)
  {
    hide PlanOf, ResolutionOf, JobOf, ReconcileChildren, PlanSummary, ApplyChildResult, CleanupVerdict;
  }

  lemma ResolvedRef(p: ReplicaSet, inputs: Inputs, i: nat)
    requires i < |p.spec.placementRefs|
    ensures var placements := ResolutionOf(p, inputs).placements;
            |placements| == |p.spec.placementRefs|
            && placements[i] == RefStatus(p, inputs.placements, p.spec.placementRefs[i], inputs.now)
  {
    hide RefStatus, RefsSelecting, UnionOf;
  }

  lemma RefReported(p: ReplicaSet, h: HubState, inputs: Inputs, i: nat)
    requires PlanOf(p, h, inputs).Some? && i < |p.spec.placementRefs|
    ensures var placements, ref := ReportedStatus(p, h, inputs).placements, p.spec.placementRefs[i];
            && |placements| == |p.spec.placementRefs|
            && placements[i] == RefStatus(p, inputs.placements, ref, inputs.now).(
                                  rollout := Get(PlanOf(p, h, inputs).value.rollouts, ref.name),
                                  summary := placements[i].summary)
  {
    hide PlanOf, ReportedStatus, ResolutionOf, ChildrenReconciled, RefConditions;
    StatusParts(p, h, inputs);
    ResolvedRef(p, inputs, i);
  }

  /** The rollout a pass reports counts the selected clusters by what the SDK said of them for any placement, or else by
      what was observed; and so does that of each placement, for its own clusters and its own answer. */
  lemma RolloutsReported(p: ReplicaSet, h: HubState, inputs: Inputs, i: nat)
    requires SdkContract(inputs.sdk) && PlanOf(p, h, inputs).Some?
    requires UniqueRefs(p.spec.placementRefs) && i < |p.spec.placementRefs|
    ensures var s, refs, x := ReportedStatus(p, h, inputs), p.spec.placementRefs,
                              PlanJob(p, ResolutionOf(p, inputs), inputs);
            && |s.placements| == |refs| && s.rollout.Some? && s.placements[i].rollout.Some?
            && CountedAs(s.rollout.value, Selected(ResolutionOf(p, inputs).clusters),
                         RolledOutByAny(h.store, x, refs, inputs), TimedOutByAny(h.store, x, refs, inputs), h.store, x)
            && CountedAs(s.placements[i].rollout.value, ClustersOfRef(inputs.placements, refs[i]),
                         RolledOutFor(h.store, x, refs[i], inputs), TimedOutFor(h.store, x, refs[i], inputs),
                         h.store, x)
  {
    hide PlanRefs, PlanJob, ResolutionOf, ReportedStatus, SdkContract, CountedAs, RolledOutFor, TimedOutFor,
         RolledOutByAny, TimedOutByAny, PlanSummary, UniqueRefs, ClustersOfRef, RefStatus, ChildrenReconciled;
    var x := PlanJob(p, ResolutionOf(p, inputs), inputs);
    SelectedIsUnion(p, inputs);
    StatusParts(p, h, inputs);
    RefReported(p, h, inputs, i);
    UnionCounts(h.store, x, p, inputs);
    EachRefCounts(h.store, x, p, p.spec.placementRefs, inputs, i);
  }

  // ---------------------------------------------------------------- placements

  ghost predicate PlacementFits(s: PlacementStatus, ref: PlacementRef, placements: Placements, generation: int) {
    var groups, resolved := placements(ref.name), Get(s.conditions, PLACEMENT_RESOLVED);
    && s.name == ref.name && s.selected == |ClustersOfRef(placements, ref)|
    && (ConditionTrue(s.conditions, PLACEMENT_RESOLVED) <==> groups.Some?)
    && (PLACEMENT_EMPTY in s.conditions <==> groups.Some? && GroupClusters(groups.value) == {})
    && resolved.Some? && resolved.value.observedGeneration == generation
  }

  lemma RefFits(p: ReplicaSet, placements: Placements, ref: PlacementRef, now: int)
    ensures PlacementFits(RefStatus(p, placements, ref, now), ref, placements, p.generation)
  {
    PlacementConditionsDistinct();
  }

  /** A placement is reported resolved exactly if it could be read, empty exactly if it then selects nothing, and with
      the number of its clusters. */
  lemma PlacementReported(p: ReplicaSet, h: HubState, inputs: Inputs, i: nat)
    requires PlanOf(p, h, inputs).Some? && i < |p.spec.placementRefs|
    ensures var placements, ref := ReportedStatus(p, h, inputs).placements, p.spec.placementRefs[i];
            |placements| == |p.spec.placementRefs|
            && PlacementFits(placements[i], ref, inputs.placements, p.generation)
  {
    hide PlanOf, ReportedStatus, ResolutionOf, RefStatus;
    RefReported(p, h, inputs, i);
    RefFits(p, inputs.placements, p.spec.placementRefs[i], inputs.now);
  }

  lemma PlacementConditionsDistinct()
    ensures PLACEMENT_RESOLVED != PLACEMENT_EMPTY
  {
    assert |PLACEMENT_RESOLVED| != |PLACEMENT_EMPTY|;
  }

  // ---------------------------------------------------------------- ready clusters

  /** A cluster counts, as far as these children go: in the window if its namespace is there, every call succeeds that
      they take, and they end up in place and ready; outside it if it is planned as Succeeded. */
  ghost predicate Counts(before: Store, after: Store, c: string, x: Job, ds: seq<Desired>) {
    if c in x.window then
      GetClusterNamespace(c) !in x.faults
      && forall d | d in ds :: !CallFails(before, x.id, d, x.faults) && ReadyInPlace(after, x.id, d)
    else Started(x, c)
  }

  lemma EnsuredReadyExactly(h: HubState, ds: seq<Desired>, x: Job, i: nat)
    requires i < |ds| && KeysAgree(ds) && forall d | d in ds :: Metadata.Owner(d.labels) == Some(x.id)
    ensures var (after, outcomes) := EnsureAll(h, x.id, ds, x.faults);
            OutcomeReady(ds[i], outcomes[i])
            <==> !CallFails(h.store, x.id, ds[i], x.faults) && ReadyInPlace(after.store, x.id, ds[i])
  {
    hide Metadata.Owner, ChildMatches, ChildReady, Ensure, KeysAgree, KeyAgrees, CallFails;
    var (after, outcomes) := EnsureAll(h, x.id, ds, x.faults);
    EnsureAllPointwise(h, x.id, ds, x.faults, i);
    OutcomeExactly(h, x.id, ds[i], x.faults);
    ForeignStays(h, x.id, ds, x.faults, ds[i].key);
    if outcomes[i].Done? {
      OneAgrees(ds, i);
      EnsuredReady(h, ds, x, i);
    }
  }

  lemma StepCounts(h: HubState, c: string, x: Job)
    requires ClusterOk(x, c) && KeysAgree(ChildrenOf(x, c))
    ensures var (after, r) := StepCluster(h, c, x);
            && (r.ready <==> Counts(h.store, after.store, c, x, ChildrenOf(x, c)) && (c in x.window ==> !x.failed(c)))
            && (r.accessReady <==> x.selector && Counts(h.store, after.store, c, x, x.access(c)))
  {
    hide EnsureAll, Metadata.Owner, KeysAgree, CallFails, ReadyInPlace, OutcomeReady, CountConflicts, CountFailures,
         Contribution;
    var ds, n := ChildrenOf(x, c), |x.access(c)|;
    var (after, outcomes) := EnsureAll(h, x.id, ds, x.faults);
    ChildrenOwned(x, c);
    forall i | 0 <= i < |ds|
      ensures OutcomeReady(ds[i], outcomes[i])
              <==> !CallFails(h.store, x.id, ds[i], x.faults) && ReadyInPlace(after.store, x.id, ds[i])
    {
      EnsuredReadyExactly(h, ds, x, i);
    }
    assert forall i :: 0 <= i < |ds| ==> ds[i] in ds;
    assert forall i :: 0 <= i < n ==> ds[i] == x.access(c)[i] && outcomes[..n][i] == outcomes[i];
  }

  /** The clusters that a step-wise answer singles out. */
  ghost function Reporting(h: HubState, clusters: seq<string>, x: Job, access: bool): set<string> {
    set c | c in clusters && Answers(h, c, x, access)
  }

  ghost predicate Answers(h: HubState, c: string, x: Job, access: bool) {
    if access then StepCluster(h, c, x).1.accessReady else StepCluster(h, c, x).1.ready
  }

  lemma {:induction false} ReadyTotals(h: HubState, clusters: seq<string>, x: Job)
    requires NoRepeats(clusters)
    ensures var t := Total(clusters, Reports(h, clusters, x), x);
            t.ready == |Reporting(h, clusters, x, false)| && t.accessReady == |Reporting(h, clusters, x, true)|
  {
    hide StepCluster, AddToRefs, Plus, RefsOf, Reporting;
    var n := |clusters| - 1;
    if n >= 0 {
      ReadyTotals(h, clusters[..n], x);
      assert Reports(h, clusters, x)[..n] == Reports(h, clusters[..n], x);
      OneMore(h, clusters, x, true);
      OneMore(h, clusters, x, false);
    } else {
      OneMore(h, clusters, x, true);
      OneMore(h, clusters, x, false);
    }
  }

  lemma OneMore(h: HubState, clusters: seq<string>, x: Job, access: bool)
    requires NoRepeats(clusters)
    ensures var n := |clusters| - 1;
            |Reporting(h, clusters, x, access)|
            == if n < 0 then 0
               else |Reporting(h, clusters[..n], x, access)| + Bit(Answers(h, clusters[n], x, access))
  {
    hide Answers;
    var n := |clusters| - 1;
    if n >= 0 {
      var init, last := clusters[..n], clusters[n];
      assert forall c :: c in clusters <==> c in init || c == last;
      assert last !in init;
      var before := Reporting(h, init, x, access);
      assert Reporting(h, clusters, x, access) == if Answers(h, last, x, access) then before + {last} else before;
    }
  }

  /** What the fan-out leaves of a wanted child, the sweep keeps. */
  lemma FannedIsKept(h: HubState, clusters: seq<string>, cleanup: set<string>, x: Job, c: string, d: Desired)
    requires NoRepeats(clusters) && JobOk(x) && cleanup <= x.window && c in clusters && d in ChildrenOf(x, c)
    ensures Get(ReconcileChildren(h, clusters, cleanup, x).hub.store, d.key) == Get(StepCluster(h, c, x).0.store, d.key)
  {
    hide Metadata.Owner, DeleteStale, StepCluster, ChildrenOf, ClusterOk;
    if FanOutAll(h, clusters, x).1.failures == 0 {
      StepIsKept(h, clusters, cleanup, x, c, d);
    } else {
      assert ClusterOk(x, c);
      ChildrenOwned(x, c);
      FanOutSplits(h, clusters, x);
      assert Agree(FanOutAll(h, clusters, x).0.store, Expected(h, clusters, x, c), c);
    }
  }

  lemma CountsAfterwards(h: HubState, clusters: seq<string>, cleanup: set<string>, x: Job, c: string,
                         ds: seq<Desired>)
    requires NoRepeats(clusters) && JobOk(x) && cleanup <= x.window && c in clusters
    requires forall d | d in ds :: d in ChildrenOf(x, c)
    ensures var after := ReconcileChildren(h, clusters, cleanup, x).hub.store;
            Counts(h.store, StepCluster(h, c, x).0.store, c, x, ds) <==> Counts(h.store, after, c, x, ds)
  {
    hide ReconcileChildren, StepCluster, ChildrenOf, ClusterOk, CallFails, ReadyInPlace;
    var after := ReconcileChildren(h, clusters, cleanup, x).hub.store;
    forall d | d in ds
      ensures ReadyInPlace(StepCluster(h, c, x).0.store, x.id, d) <==> ReadyInPlace(after, x.id, d)
    {
      FannedIsKept(h, clusters, cleanup, x, c, d);
      SameReady(StepCluster(h, c, x).0.store, after, x.id, d);
    }
  }

  lemma AccessAmongChildren(x: Job, c: string)
    ensures forall d | d in x.access(c) :: d in ChildrenOf(x, c)
  {
    var access := x.access(c);
    forall i | 0 <= i < |access| ensures access[i] in ChildrenOf(x, c) {
      assert ChildrenOf(x, c)[i] == access[i];
    }
  }

  ghost function ReadyClusters(before: Store, after: Store, clusters: seq<string>, x: Job): set<string> {
    set c | c in clusters && Counts(before, after, c, x, ChildrenOf(x, c)) && (c in x.window ==> !x.failed(c))
  }

  ghost function AccessClusters(before: Store, after: Store, clusters: seq<string>, x: Job): set<string> {
    set c | c in clusters && Counts(before, after, c, x, x.access(c))
  }

  lemma TallyCounts(h: HubState, clusters: seq<string>, cleanup: set<string>, x: Job)
    requires NoRepeats(clusters) && JobOk(x) && cleanup <= x.window
    requires forall c | c in clusters :: KeysAgree(ChildrenOf(x, c))
    ensures var t, after := FanOutAll(h, clusters, x).1, ReconcileChildren(h, clusters, cleanup, x).hub.store;
            && t.ready == |ReadyClusters(h.store, after, clusters, x)|
            && (x.selector ==> t.accessReady == |AccessClusters(h.store, after, clusters, x)|)
  {
    hide ReconcileChildren, StepCluster, ChildrenOf, ClusterOk, Counts, KeysAgree, FanOutAll;
    var after := ReconcileChildren(h, clusters, cleanup, x).hub.store;
    FanOutSplits(h, clusters, x);
    ReadyTotals(h, clusters, x);
    forall c | c in clusters
      ensures StepCluster(h, c, x).1.ready
              <==> Counts(h.store, after, c, x, ChildrenOf(x, c)) && (c in x.window ==> !x.failed(c))
      ensures StepCluster(h, c, x).1.accessReady <==> x.selector && Counts(h.store, after, c, x, x.access(c))
    {
      assert ClusterOk(x, c);
      StepCounts(h, c, x);
      CountsAfterwards(h, clusters, cleanup, x, c, ChildrenOf(x, c));
      AccessAmongChildren(x, c);
      CountsAfterwards(h, clusters, cleanup, x, c, x.access(c));
    }
    assert Reporting(h, clusters, x, false) == ReadyClusters(h.store, after, clusters, x);
    if x.selector { assert Reporting(h, clusters, x, true) == AccessClusters(h.store, after, clusters, x); }
  }

  lemma CountParts(p: ReplicaSet, h: HubState, inputs: Inputs)
    requires PlanOf(p, h, inputs).Some?
    ensures var s, t, total := ReportedStatus(p, h, inputs), ChildrenReconciled(p, h, inputs).tally,
                               |ResolutionOf(p, inputs).clusters|;
            && s.ready == t.ready && (s.access.Some? <==> SelectorRbacEnabled(p.spec))
            && (s.access.Some? ==>
                  s.access.value.desired == total && s.access.value.ready == t.accessReady
                  && (ConditionTrue(s.access.value.conditions, READY) <==> t.accessReady == total))
  {
    hide PlanOf, ResolutionOf, ApplyJob, ReconcileChildren, PlanSummary, ApplyChildResult, CleanupVerdict,
         PlacementReports, SelectorRbacEnabled;
    ReadyIsTallied(p, h, inputs);
    JobSelector(p, ResolutionOf(p, inputs), PlanOf(p, h, inputs).value, inputs);
  }

  lemma ReadyIsTallied(p: ReplicaSet, h: HubState, inputs: Inputs)
    requires PlanOf(p, h, inputs).Some?
    ensures ChildrenReconciled(p, h, inputs).result.ready == ChildrenReconciled(p, h, inputs).tally.ready
  {
    hide PlanOf, ResolutionOf, JobOf, FanOutAll, DeleteStale;
  }

  /** The ready count is the number of selected clusters that count with all their children, and the count of clusters
      with access, reported exactly for sets with selectors, that of those that count with their access children. */
  lemma ReadyCountsReported(p: ReplicaSet, h: HubState, inputs: Inputs)
    requires PlanOf(p, h, inputs).Some?
    requires forall c | c in ResolutionOf(p, inputs).clusters :: NamesApart(p.id, p.spec, c, inputs.resolve)
    ensures var s, clusters, x := ReportedStatus(p, h, inputs), ResolutionOf(p, inputs).clusters, JobOf(p, h, inputs);
            var after := ChildrenReconciled(p, h, inputs).hub.store;
            && s.ready == |ReadyClusters(h.store, after, clusters, x)|
            && (s.access.Some? <==> SelectorRbacEnabled(p.spec))
            && (s.access.Some? ==>
                  && s.access.value.desired == |clusters|
                  && s.access.value.ready == |AccessClusters(h.store, after, clusters, x)|
                  && (ConditionTrue(s.access.value.conditions, READY) <==> s.access.value.ready == |clusters|))
  {
    hide PlanOf, ApplyJob, ReconcileChildren, ReportedStatus, NamesApart, KeysAgree, ReadyClusters, AccessClusters,
         Resolve, JobOk, ChildrenOf, SelectorRbacEnabled;
    var clusters, x := ResolutionOf(p, inputs).clusters, JobOf(p, h, inputs);
    JobFacts(p, h, inputs);
    ReadyCounts(p, h, inputs);
    CountParts(p, h, inputs);
    JobSelector(p, ResolutionOf(p, inputs), PlanOf(p, h, inputs).value, inputs);
    forall c | c in clusters { AgreesInJob(p, h, inputs, c); }
    TallyCounts(h, clusters, PlanOf(p, h, inputs).value.window, x);
  }

  // ---------------------------------------------------------------- conditions

  /** What the outcome of the children says: errors before conflicts before waiting. */
  ghost predicate VerdictsFit(c: Conditions, r: ChildResult, total: nat, rbac: bool) {
    && ACCOUNTS_READY in c
    && (r.failed ==> SaysOf(c, ACCOUNTS_READY, False, "ApplyFailed"))
    && (!r.failed && r.conflicts > 0 ==> SaysOf(c, ACCOUNTS_READY, False, "ChildConflict"))
    && (ConditionTrue(c, ACCOUNTS_READY) <==> !r.failed && r.conflicts == 0 && r.failures == 0 && r.ready >= total)
    && (rbac && (r.failed || r.conflicts > 0) ==> SaysOf(c, PERMISSIONS_APPLIED, False, "ApplyFailed"))
  }

  lemma AppliedFits(before: Conditions, r: ChildResult, summary: Option<Summary>, total: nat, rbac: bool,
                    generation: int, now: int)
    ensures var c := ApplyChildResult(before, r, summary, total, rbac, generation, now);
            && VerdictsFit(c, r, total, rbac) && READY in c
            && c[READY].status == c[ACCOUNTS_READY].status && c[READY].reason == c[ACCOUNTS_READY].reason
            && Get(c, PLACEMENT_RESOLVED) == Get(before, PLACEMENT_RESOLVED)
  {
    ConditionNamesDistinct();
  }

  /** What a pending cleanup changes: Ready is overruled, and nothing else but the cleanup's own condition. */
  lemma CleanupFits(before: Conditions, pending: bool, generation: int, now: int)
    ensures var c := CleanupVerdict(before, pending, generation, now);
            && CLEANUP_BLOCKED in c && (ConditionTrue(c, CLEANUP_BLOCKED) <==> pending)
            && (if pending then SaysOf(c, READY, False, "CleanupBlocked") else Get(c, READY) == Get(before, READY))
            && forall k | k != READY && k != CLEANUP_BLOCKED :: Get(c, k) == Get(before, k)
  {
    ConditionNamesDistinct();
  }

  ghost predicate ReasonsFit(c: Conditions, r: ChildResult, total: nat, rbac: bool) {
    var ready, accounts := Get(c, READY), Get(c, ACCOUNTS_READY);
    && VerdictsFit(c, r, total, rbac) && ConditionTrue(c, PLACEMENT_RESOLVED)
    && CLEANUP_BLOCKED in c && (ConditionTrue(c, CLEANUP_BLOCKED) <==> r.pending)
    && (r.pending ==> SaysOf(c, READY, False, "CleanupBlocked"))
    && (!r.pending ==> ready.Some? && accounts.Some? && ready.value.status == accounts.value.status
                       && ready.value.reason == accounts.value.reason)
  }

  lemma SameVerdicts(a: Conditions, b: Conditions, r: ChildResult, total: nat, rbac: bool)
    requires VerdictsFit(a, r, total, rbac)
    requires Get(a, ACCOUNTS_READY) == Get(b, ACCOUNTS_READY)
    requires Get(a, PERMISSIONS_APPLIED) == Get(b, PERMISSIONS_APPLIED)
    ensures VerdictsFit(b, r, total, rbac)
  {
  }

  lemma StatusFits(p: ReplicaSet, resolution: Resolution, plan: Plan, selector: bool, t: Tally, r: ChildResult,
                   now: int)
    ensures ReasonsFit(FullStatus(p, resolution, plan, selector, t, r, now).conditions, r, |resolution.clusters|,
                       RbacEnabled(p.spec))
  {
    hide VerdictsFit, ApplyChildResult, CleanupVerdict, PlanSummary, PlacementReports, RbacEnabled, IsCompleted;
    ConditionNamesDistinct();
    var total := |resolution.clusters|;
    var planned := RolledOut(ResolvedConditions(p, now), PlanSummary(plan, p, total, now), p.generation, now);
    var applied := ApplyChildResult(planned, r, t.summary, total, RbacEnabled(p.spec), p.generation, now);
    AppliedFits(planned, r, t.summary, total, RbacEnabled(p.spec), p.generation, now);
    CleanupFits(applied, r.pending, p.generation, now);
    SameVerdicts(applied, CleanupVerdict(applied, r.pending, p.generation, now), r, total, RbacEnabled(p.spec));
  }

  /** The reasons a pass gives: errors before conflicts before waiting; cleanup overrules Ready alone, and is what
      CleanupBlocked says; the placement is resolved. */
  lemma ReasonsReported(p: ReplicaSet, h: HubState, inputs: Inputs)
    requires PlanOf(p, h, inputs).Some?
    ensures ReasonsFit(ReportedStatus(p, h, inputs).conditions, ChildrenReconciled(p, h, inputs).result,
                       |ResolutionOf(p, inputs).clusters|, RbacEnabled(p.spec))
  {
    hide PlanOf, ResolutionOf, JobOf, ChildrenReconciled, FullStatus, ReasonsFit;
    var r := ChildrenReconciled(p, h, inputs);
    StatusFits(p, ResolutionOf(p, inputs), PlanOf(p, h, inputs).value, JobOf(p, h, inputs).selector, r.tally, r.result,
               inputs.now);
  }

  // ---------------------------------------------------------------- transition times

  /** The conditions of a set that a pass sets once, and Ready unless cleanup overrules it. */
  predicate KeepsTime(kind: string, pending: bool) {
    kind in {PLACEMENT_RESOLVED, ROLLED_OUT, ACCOUNTS_READY, PERMISSIONS_APPLIED, CLEANUP_BLOCKED}
    || (kind == READY && !pending)
  }

  lemma StatusTimes(p: ReplicaSet, resolution: Resolution, plan: Plan, selector: bool, t: Tally, r: ChildResult,
                    now: int, kind: string)
    requires KeepsTime(kind, r.pending)
    requires PROGRESSING in PlanSummary(plan, p, |resolution.clusters|, now).conditions
    ensures TimeKept(p.status.conditions, FullStatus(p, resolution, plan, selector, t, r, now).conditions, kind, now)
  {
    hide ReadyVerdict, PermissionsVerdict, PlanSummary, PlacementReports, RbacEnabled, IsCompleted;
    ConditionNamesDistinct();
  }

  /** The set's previous status lists the placements of its spec. */
  ghost predicate Lists(s: Status, refs: seq<PlacementRef>) {
    |s.placements| == |refs| && forall i :: 0 <= i < |refs| ==> s.placements[i].name == refs[i].name
  }

  lemma {:induction false} PreviousRolloutIs(placements: seq<PlacementStatus>, i: nat)
    requires i < |placements| && forall j :: 0 <= j < i ==> placements[j].name != placements[i].name
    ensures PreviousRollout(placements, placements[i].name) == RolloutConditions(placements[i].rollout)
    decreases i
  {
    if i > 0 { PreviousRolloutIs(placements[1..], i - 1); }
  }

  lemma {:induction false} PreviousPlacementIs(placements: seq<PlacementStatus>, i: nat)
    requires i < |placements| && forall j :: i < j < |placements| ==> placements[j].name != placements[i].name
    ensures PreviousIn(placements, placements[i].name) == Some(placements[i])
    decreases |placements|
  {
    var n := |placements| - 1;
    if i < n { PreviousPlacementIs(placements[..n], i); }
  }

  ghost function Had(rollout: Option<RolloutSummary>): Conditions {
    if rollout.Some? then rollout.value.conditions else map[]
  }

  /** A placement's own conditions and the one of its rollout keep their times. */
  ghost predicate PlacementTimesKept(before: PlacementStatus, after: PlacementStatus, now: int) {
    && TimeKept(before.conditions, after.conditions, PLACEMENT_RESOLVED, now)
    && TimeKept(before.conditions, after.conditions, PLACEMENT_EMPTY, now)
    && after.rollout.Some? && TimeKept(Had(before.rollout), after.rollout.value.conditions, PROGRESSING, now)
  }

  lemma RefTimesKept(p: ReplicaSet, placements: Placements, ref: PlacementRef, now: int, before: PlacementStatus,
                     kind: string)
    requires PreviousPlacement(p.status, ref.name) == Some(before) && kind in {PLACEMENT_RESOLVED, PLACEMENT_EMPTY}
    ensures TimeKept(before.conditions, RefStatus(p, placements, ref, now).conditions, kind, now)
  {
    PlacementConditionsDistinct();
  }

  lemma PlacementTimes(p: ReplicaSet, h: HubState, inputs: Inputs, i: nat)
    requires PlanOf(p, h, inputs).Some? && UniqueRefs(p.spec.placementRefs) && Lists(p.status, p.spec.placementRefs)
    requires i < |p.spec.placementRefs|
    ensures |ReportedStatus(p, h, inputs).placements| == |p.spec.placementRefs|
            && PlacementTimesKept(p.status.placements[i], ReportedStatus(p, h, inputs).placements[i], inputs.now)
  {
    hide PlanRefs, PlanJob, ReportedStatus, ResolutionOf, RefStatus, TimeKept, PreviousRollout, PreviousIn;
    var ref, before := p.spec.placementRefs[i], p.status.placements[i];
    RefReported(p, h, inputs, i);
    PreviousRolloutIs(p.status.placements, i);
    PreviousPlacementIs(p.status.placements, i);
    RefTimesKept(p, inputs.placements, ref, inputs.now, before, PLACEMENT_RESOLVED);
    RefTimesKept(p, inputs.placements, ref, inputs.now, before, PLACEMENT_EMPTY);
    EachRefTimes(h.store, PlanJob(p, ResolutionOf(p, inputs), inputs), p, p.spec.placementRefs, inputs, i);
  }

  lemma RolloutTimes(p: ReplicaSet, h: HubState, inputs: Inputs)
    requires PlanOf(p, h, inputs).Some?
    ensures var plan, total := PlanOf(p, h, inputs).value, |ResolutionOf(p, inputs).clusters|;
            PROGRESSING in PlanSummary(plan, p, total, inputs.now).conditions
    ensures var s := ReportedStatus(p, h, inputs);
            s.rollout.Some? && TimeKept(Had(p.status.rollout), s.rollout.value.conditions, PROGRESSING, inputs.now)
  {
    hide PlanOf, ResolutionOf, ReportedStatus, ChildrenReconciled, Summarize, TimeKept;
    var plan := PlanOf(p, h, inputs).value;
    StatusParts(p, h, inputs);
    SummaryTimes(|ResolutionOf(p, inputs).clusters|, plan.window, plan.timedOut, plan.statuses,
                 RolloutConditions(p.status.rollout), p.generation, inputs.now);
  }

  lemma OwnTimes(p: ReplicaSet, h: HubState, inputs: Inputs, kind: string)
    requires PlanOf(p, h, inputs).Some?
    requires KeepsTime(kind, ChildrenReconciled(p, h, inputs).result.pending)
    ensures TimeKept(p.status.conditions, ReportedStatus(p, h, inputs).conditions, kind, inputs.now)
  {
    hide PlanOf, ResolutionOf, JobOf, ChildrenReconciled, FullStatus, PlanSummary, TimeKept, KeepsTime;
    var r := ChildrenReconciled(p, h, inputs);
    RolloutTimes(p, h, inputs);
    StatusTimes(p, ResolutionOf(p, inputs), PlanOf(p, h, inputs).value, JobOf(p, h, inputs).selector, r.tally, r.result,
                inputs.now, kind);
  }

  /** So does the one of the controller's access. */
  ghost predicate AccessTimeKept(before: Option<AccessStatus>, after: Option<AccessStatus>, now: int) {
    after.Some? ==>
      READY in after.value.conditions
      && TimeKept(if before.Some? then before.value.conditions else map[], after.value.conditions, READY, now)
  }

  lemma AccessTimes(p: ReplicaSet, h: HubState, inputs: Inputs)
    requires PlanOf(p, h, inputs).Some?
    ensures AccessTimeKept(p.status.access, ReportedStatus(p, h, inputs).access, inputs.now)
  {
    hide PlanOf, ResolutionOf, JobOf, ChildrenReconciled, PlanSummary, ApplyChildResult, CleanupVerdict,
         PlacementReports;
  }

  /** No condition moves its transition time unless its status changes, in the set's own conditions as in those of its
      rollout, of its placements and of its access; but for Ready, while cleanup is pending. */
  lemma TimesReported(p: ReplicaSet, h: HubState, inputs: Inputs, kind: string, i: nat)
    requires PlanOf(p, h, inputs).Some? && UniqueRefs(p.spec.placementRefs) && Lists(p.status, p.spec.placementRefs)
    requires KeepsTime(kind, ChildrenReconciled(p, h, inputs).result.pending)
    requires i < |p.spec.placementRefs|
    ensures var s, now := ReportedStatus(p, h, inputs), inputs.now;
            && TimeKept(p.status.conditions, s.conditions, kind, now)
            && s.rollout.Some? && TimeKept(Had(p.status.rollout), s.rollout.value.conditions, PROGRESSING, now)
            && |s.placements| == |p.spec.placementRefs|
            && PlacementTimesKept(p.status.placements[i], s.placements[i], now)
            && AccessTimeKept(p.status.access, s.access, now)
  {
    hide PlanOf, ResolutionOf, ReportedStatus, ChildrenReconciled, TimeKept, PlacementTimesKept, UniqueRefs, KeepsTime,
         Lists, Had, AccessTimeKept;
    AccessTimes(p, h, inputs);
    OwnTimes(p, h, inputs, kind);
    RolloutTimes(p, h, inputs);
    PlacementTimes(p, h, inputs, i);
  }

  // ---------------------------------------------------------------- when there is a summary

  lemma {:induction false} SummaryPresent(clusters: seq<string>, reports: seq<Report>, x: Job)
    requires |clusters| == |reports|
    ensures Total(clusters, reports, x).summary.Some? <==> exists r | r in reports :: r.summary.Some?
  {
    hide AddToRefs, Plus, RefsOf;
    var n := |clusters| - 1;
    if n >= 0 {
      SummaryPresent(clusters[..n], reports[..n], x);
      assert forall r :: r in reports <==> r in reports[..n] || r == reports[n];
    }
  }

  /** A cluster whose works are counted: applied, or only read because it is planned as Succeeded. */
  predicate Counted(c: string, x: Job) {
    if c in x.window then GetClusterNamespace(c) !in x.faults else Started(x, c)
  }

  lemma StepSummary(h: HubState, c: string, x: Job)
    ensures StepCluster(h, c, x).1.summary.Some? <==> x.rbac && Counted(c, x)
  {
    hide EnsureAll, AllReady, SumWorks;
  }

  lemma TallySummary(h: HubState, clusters: seq<string>, x: Job)
    requires NoRepeats(clusters) && JobOk(x)
    ensures FanOutAll(h, clusters, x).1.summary.Some? <==> x.rbac && exists c | c in clusters :: Counted(c, x)
  {
    hide StepCluster, Counted, JobOk, FanOutAll;
    var reports := Reports(h, clusters, x);
    FanOutSplits(h, clusters, x);
    SummaryPresent(clusters, reports, x);
    forall c { StepSummary(h, c, x); }
    assert forall i :: 0 <= i < |clusters| ==> clusters[i] in clusters && reports[i] in reports;
  }

  /** There is a summary of the works exactly if the set has RBAC and some selected cluster is counted. */
  lemma SummaryReported(p: ReplicaSet, h: HubState, inputs: Inputs)
    requires PlanOf(p, h, inputs).Some?
    ensures ReportedStatus(p, h, inputs).summary.Some?
            <==> RbacEnabled(p.spec)
                 && exists c | c in ResolutionOf(p, inputs).clusters :: Counted(c, JobOf(p, h, inputs))
  {
    hide PlanOf, Resolve, ApplyJob, FanOutAll, ReportedStatus, Counted, JobOk, RbacEnabled, ReconcileChildren;
    JobFacts(p, h, inputs);
    JobRbac(p, h, inputs);
    ReportedSummaries(p, h, inputs);
    TallySummary(h, ResolutionOf(p, inputs).clusters, JobOf(p, h, inputs));
  }
}
