/** Inputs the controller can receive on which stronger claims than those proved elsewhere would fail. */
module Witnesses {
  import opened Model
  import opened Names
  import opened Metadata
  import opened Rbac
  import opened Children
  import opened Hub
  import opened FanOut
  import Cleanup
  import Observation
  import opened Rollout
  import opened Planning
  import opened Validation
  import opened StatusReport
  import opened Reconciler
  import opened PassProperties
  import opened PassEffects
  import Reporting
  import opened Example
  import opened Resting

  // ---------------------------------------------------------------- cleanup pending over ready children

  const OLD := Key(WorkKind, "old", "work")

  /** A work of the set in a cluster that no placement selects, still held by its agent. */
  function OldWork(): Child {
    Child(SourceLabels(ID), map[], WorkSpec(FOREGROUND, []), map[], 1, false, true)
  }

  lemma OldWorkOwned(others: Store)
    requires others == map[OLD := OldWork()]
    ensures var store := HubWith(false, others).store; OLD in store && Owner(store[OLD].labels) == Some(ID)
  {
    OwnedByOwner(ID, SourceLabels(ID));
    assert OwnedBySet(ID, SourceLabels(ID));
    hide Owner, BuildAccount;
    AccountKeyOf(ID, NO_RBAC, "cluster", "placement");
  }

  /** What a pass reports, had the set been reported on in the same way before. */
  function ReportedAgain(p: ReplicaSet, h: HubState, inputs: Inputs, later: int): Status
    requires PlanOf(p, h, inputs).Some?
  {
    var r := ChildrenReconciled(p, h, inputs);
    FullStatus(p.(status := ReportedStatus(p, h, inputs)), ResolutionOf(p, inputs), PlanOf(p, h, inputs).value,
               JobOf(p, h, inputs).selector, r.tally, r.result, later)
  }

  /** Cleanup is pending although every child is ready, and repeating the pass moves the transition time of Ready. */
  ghost predicate PendingMoves(p: ReplicaSet, h: HubState, inputs: Inputs, later: int)
    requires PlanOf(p, h, inputs).Some?
  {
    var r, total := ChildrenReconciled(p, h, inputs), |ResolutionOf(p, inputs).clusters|;
    var first, again := ReportedStatus(p, h, inputs).conditions, ReportedAgain(p, h, inputs, later).conditions;
    && r.result.pending && ReadyVerdict(r.result, r.tally.summary, total, RbacEnabled(p.spec)).status == True
    && READY in first && READY in again && Get(again, READY) != Get(first, READY)
  }

  lemma ReadyTimeMoves(later: int)
    requires later != RESTING.now
    ensures var p, h := Parent(NO_RBAC), HubWith(false, map[OLD := OldWork()]);
            ReachesChildren(p, h, RESTING) && PendingMoves(p, h, RESTING, later)
  {
    hide PlanOf, FullStatus, JobOf, Cleanup.ReconcileChildren, ResolutionOf, ReachesChildren, HubWith, Owner, OldWork;
    var p, h := Parent(NO_RBAC), HubWith(false, map[OLD := OldWork()]);
    NoRbacRests(false, map[OLD := OldWork()]);
    OldWorkOwned(map[OLD := OldWork()]);
    RestingTally(p, h, RESTING);
    RestingSweep(p, h, RESTING, OLD);
    var r := ChildrenReconciled(p, h, RESTING);
    ReadyTimeKeptExactly(p, ResolutionOf(p, RESTING), PlanOf(p, h, RESTING).value, JobOf(p, h, RESTING).selector,
                         r.tally, r.result, RESTING.now, later);
  }

  // ---------------------------------------------------------------- permissions of clusters that wait

  const READER := Grant("reader", RoleGrant, Some(NamespaceIterator("apps", [], None)), "reader", map[], map[],
                        ["pods get"])
  const WITH_ROLE := Spec([REF], TEMPLATE, Some([READER]))

  function ReaderSlice(resolve: Resolver): Slice {
    NamespaceSlice(ID, WITH_ROLE, "cluster", resolve, "apps")
  }

  lemma OneNamespace(resolve: Resolver)
    ensures TargetNamespaces("cluster", [READER], resolve) == {"apps"} && SortedList({"apps"}) == ["apps"]
    ensures ClusterGrants([READER]) == [] && !HasFailing("cluster", [READER], resolve)
  {
    assert [READER][..0] == [];
    assert OwnTargets("cluster", READER, resolve) == {"apps"} by {
      assert GrantNamespaces("cluster", READER, resolve) == Some(["apps"]);
    }
    assert TargetNamespaces("cluster", [], resolve) == {} && ClusterGrants([]) == [];
    SortedLength({"apps"});
    assert SortedList({"apps"})[0] in SortedList({"apps"});
  }

  lemma ReaderSlices(resolve: Resolver)
    ensures DesiredSlices(ID, WITH_ROLE, "cluster", resolve) == Compiled([ReaderSlice(resolve)], false)
  {
    hide NamespaceSlice, TargetNamespaces, ClusterGrants, HasFailing;
    OneNamespace(resolve);
  }

  lemma WithRoleValid()
    ensures ValidSpec(WITH_ROLE)
  {
    assert REF in [REF] && READER in [READER];
  }

  /** An SDK that rolls out every cluster, until all have been under way for too long. */
  function GiveUp(ref: PlacementRef, existing: seq<ClusterStatus>): Option<RolloutResult> {
    if forall e | e in existing :: e.state == Progressing && e.time.Some?
    then Some(RolloutResult([], AllTimedOut(existing), 0))
    else Some(RolloutResult(existing, [], 0))
  }

  function AllTimedOut(existing: seq<ClusterStatus>): seq<ClusterStatus> {
    seq(|existing|, i requires 0 <= i < |existing| => existing[i].(state := TimeOut))
  }

  const GIVING_UP := Asking(OneCluster, GiveUp, NoNamespaces)

  lemma TimedOutNames(existing: seq<ClusterStatus>)
    ensures NamesIn(AllTimedOut(existing)) == NamesIn(existing)
    ensures forall e | e in AllTimedOut(existing) :: e.state == TimeOut
  {
    var late := AllTimedOut(existing);
    forall e | e in existing && e.cluster != "" ensures e.cluster in NamesIn(late) {
      var i :| 0 <= i < |existing| && existing[i] == e;
      var l := late[i];
      assert l in late && l.cluster == e.cluster;
    }
    forall e | e in late ensures (e.cluster != "" ==> e.cluster in NamesIn(existing)) && e.state == TimeOut {
      var i :| 0 <= i < |late| && late[i] == e;
      assert existing[i] in existing;
    }
  }

  lemma GiveUpContract()
    ensures SdkContract(GiveUp)
  {
    forall ref: PlacementRef, existing: seq<ClusterStatus> ensures SdkAnswerOk(existing, GiveUp(ref, existing).value) {
      TimedOutNames(existing);
    }
  }

  /** The account is there, but its agent has not yet reported a token. */
  function SlowHub(): HubState {
    var waiting := Condition(False, "Waiting", 1, Some(7));
    HubState(map[Account(WITH_ROLE).key := Created(Account(WITH_ROLE)).(conditions := map[TOKEN_REPORTED := waiting])],
             {})
  }

  lemma SlowHubOwned()
    ensures SlowHub().store.Keys == {Account(WITH_ROLE).key} && AllHere(SlowHub().store)
    ensures Owner(SlowHub().store[Account(WITH_ROLE).key].labels) == Some(ID)
    ensures Account(WITH_ROLE).key == Key(AccountKind, "cluster", "account")
  {
    hide ChildLabels, Owner;
    ChildLabelsOwned(ID, "placement", map[]);
  }

  lemma SlowIsProgressing(x: Job)
    requires x.id == ID && x.faults == {} && x.account("cluster") == Account(WITH_ROLE)
    ensures StatusOf(SlowHub().store, x, "cluster") == ClusterStatus("cluster", Progressing, Some(7))
  {
    hide ChildLabels, Owner, OwnedBySet;
    SlowHubOwned();
    OwnedByOwner(ID, SlowHub().store[Account(WITH_ROLE).key].labels);
    var look := Observation.LookAt(SlowHub().store, ID, Account(WITH_ROLE), {});
    assert look.seen == Observation.Observed(Progressing, Some(7));
  }

  lemma PlanJobAccount(p: ReplicaSet, resolution: Resolution, inputs: Inputs, c: string)
    ensures PlanJob(p, resolution, inputs).account(c) == BuildAccount(p.id, p.spec, c, Primary(resolution.refs, c))
  {
    hide SelectorRbacEnabled, DesiredAccountNames, DesiredWorkNames, DesiredSlices, AccessChildren, BuildAccount,
         SliceWorks;
  }

  lemma GivesUp(store: Store, x: Job)
    requires StatusOf(store, x, "cluster") == ClusterStatus("cluster", Progressing, Some(7))
    ensures var answer := GiveUp(REF, StatusList(store, x, ["cluster"]));
            answer.Some? && answer.value.toRollout == [] && NamesIn(answer.value.timedOut) == {"cluster"}
  {
    hide StatusOf;
    NamesListed(store, x);
    TimedOutNames(StatusList(store, x, ["cluster"]));
    var list := StatusList(store, x, ["cluster"]);
    forall e | e in list ensures e == list[0] {
    }
  }

  /** Planning finds the cluster under way and gives it up. */
  lemma SlowPlanned()
    ensures var p, h := Parent(WITH_ROLE), SlowHub();
            && PlanOf(p, h, GIVING_UP).Some? && PlanOf(p, h, GIVING_UP).value.window == {}
            && PlanOf(p, h, GIVING_UP).value.timedOut == {"cluster"}
            && StatusOf(h.store, PlanJob(p, ResolutionOf(p, GIVING_UP), GIVING_UP), "cluster").state == Progressing
  {
    hide PlanRef, PlanJob, PlanOf, CannotObserve, Resolve, DesiredSlices, StatusList, StatusOf, NamesIn, AnswerFor,
         MergeRef, GiveUp, SlowHub;
    var p, h := Parent(WITH_ROLE), SlowHub();
    var x := PlanJob(p, ResolutionOf(p, GIVING_UP), GIVING_UP);
    Chosen(p, GIVING_UP.now);
    ReaderSlices(NoNamespaces);
    PlanJobFields(p, ResolutionOf(p, GIVING_UP), GIVING_UP, "cluster");
    PlanJobAccount(p, ResolutionOf(p, GIVING_UP), GIVING_UP, "cluster");
    SlowIsProgressing(x);
    GivesUp(h.store, x);
    NamesListed(h.store, x);
    Observable(h.store, x, "cluster");
    OnePlan(p, h, GIVING_UP);
    OneRefMerged(NO_PLAN, h.store, x, p, REF, GIVING_UP);
    OneRefAdds(NO_PLAN, h.store, x, p, REF, GIVING_UP);
  }

  lemma WorksOfJob(p: ReplicaSet, resolution: Resolution, plan: Plan, inputs: Inputs, c: string)
    ensures ApplyJob(p, resolution, plan, inputs).works(c)
            == SliceWorks(p.id, c, Primary(resolution.refs, c), DesiredSlices(p.id, p.spec, c, inputs.resolve).slices)
  {
    hide SelectorRbacEnabled, DesiredAccountNames, DesiredWorkNames, DesiredSlices, AccessChildren, BuildAccount,
         SliceWorks;
  }

  lemma GivenUpIsNotStarted()
    ensures var p, h := Parent(WITH_ROLE), SlowHub();
            PlanOf(p, h, GIVING_UP).Some? && !Started(JobOf(p, h, GIVING_UP), "cluster")
  {
    hide PlanOf, Resolve, PlanJob, ApplyJob, StatusOf, SdkContract, SlowHub;
    var p, h := Parent(WITH_ROLE), SlowHub();
    GiveUpContract();
    SlowPlanned();
    PlanFacts(p, h, GIVING_UP);
    JobFields(p, ResolutionOf(p, GIVING_UP), PlanOf(p, h, GIVING_UP).value, GIVING_UP);
  }

  lemma ReaderWorkMissing(x: Job)
    requires JobOk(x) && x.works("cluster") != []
    ensures !Reporting.AllWorksReady(SlowHub().store, ["cluster"], x)
  {
    hide SlowHub;
    SlowHubOwned();
    var w := x.works("cluster")[0];
    assert ClusterOk(x, "cluster") && w in x.works("cluster");
    assert !ReadyInPlace(SlowHub().store, x.id, w.work) && "cluster" in ["cluster"];
  }

  lemma SlowReaches()
    ensures var p, h := Parent(WITH_ROLE), SlowHub();
            && ReachesChildren(p, h, GIVING_UP) && Rests(p, h, GIVING_UP)
            && PlanOf(p, h, GIVING_UP).value.timedOut == {"cluster"}
            && JobOf(p, h, GIVING_UP).works("cluster") != []
  {
    hide PlanOf, Resolve, DesiredSlices, ApplyJob, ValidSpec, SlowHub, StatusOf, PlanJob;
    var p, h := Parent(WITH_ROLE), SlowHub();
    SlowPlanned();
    ReaderSlices(NoNamespaces);
    WithRoleValid();
    Chosen(p, GIVING_UP.now);
    Reaches(p, h, GIVING_UP);
    WorksOfJob(p, ResolutionOf(p, GIVING_UP), PlanOf(p, h, GIVING_UP).value, GIVING_UP, "cluster");
  }

  /** RemotePermissionsApplied is true although the one selected cluster has none of its works: it was under way for too
      long, and has been given up. */
  lemma PermissionsWithoutWorks()
    ensures var p, h := Parent(WITH_ROLE), SlowHub();
            && SdkContract(GIVING_UP.sdk) && ReachesChildren(p, h, GIVING_UP) && RbacEnabled(p.spec)
            && PlanOf(p, h, GIVING_UP).value.timedOut == {"cluster"}
            && ConditionTrue(ReportedStatus(p, h, GIVING_UP).conditions, PERMISSIONS_APPLIED)
            && ResolutionOf(p, GIVING_UP).clusters == ["cluster"]
            && !Reporting.AllWorksReady(ReconcilePass(p, h, GIVING_UP).hub.store, ["cluster"], JobOf(p, h, GIVING_UP))
  {
    hide PlanOf, ResolutionOf, JobOf, FullStatus, Cleanup.ReconcileChildren, ReconcilePass, SdkContract, ValidSpec,
         SlowHub, Reporting.AllWorksReady, JobOk, Started, AllHere;
    var p, h := Parent(WITH_ROLE), SlowHub();
    GiveUpContract();
    SlowReaches();
    GivenUpIsNotStarted();
    JobFacts(p, h, GIVING_UP);
    SlowHubOwned();
    RestingTally(p, h, GIVING_UP);
    PassOfChildren(p, h, GIVING_UP);
    ReaderWorkMissing(JobOf(p, h, GIVING_UP));
    var r := ChildrenReconciled(p, h, GIVING_UP);
    PermissionsExactly(p, ResolutionOf(p, GIVING_UP), PlanOf(p, h, GIVING_UP).value, JobOf(p, h, GIVING_UP).selector,
                       r.tally, r.result, GIVING_UP.now);
  }

  // ---------------------------------------------------------------- one cluster in both windows

  const LATE := PlacementRef("late", "All")
  const TWO_REFS := Spec([REF, LATE], TEMPLATE, None)

  /** An SDK that rolls a cluster out for one ref and times it out for the other. */
  function Both(ref: PlacementRef, existing: seq<ClusterStatus>): Option<RolloutResult> {
    if ref.name == "late"
    then Some(RolloutResult([], AllTimedOut(existing), 0))
    else Some(RolloutResult(existing, [], 0))
  }

  const OVERLAPPING := Asking(OneCluster, Both, NoNamespaces)

  lemma BothContract()
    ensures SdkContract(Both)
  {
    forall ref: PlacementRef, existing: seq<ClusterStatus> ensures SdkAnswerOk(existing, Both(ref, existing).value) {
      TimedOutNames(existing);
    }
  }

  lemma TwoPlans(p: ReplicaSet, h: HubState, inputs: Inputs, a: PlacementRef, b: PlacementRef)
    requires p.spec.placementRefs == [a, b]
    ensures var x := PlanJob(p, ResolutionOf(p, inputs), inputs);
            var first := PlanRef(NO_PLAN, h.store, x, p, a, inputs);
            first.Some? ==> PlanOf(p, h, inputs) == PlanRef(first.value, h.store, x, p, b, inputs)
  {
    hide PlanRef, PlanJob, Resolve;
    var x := PlanJob(p, ResolutionOf(p, inputs), inputs);
    assert [a, b][..1] == [a] && [a][..0] == [];
    assert PlanRefs(h.store, x, p, [], inputs) == Some(NO_PLAN);
    assert PlanRefs(h.store, x, p, [a], inputs) == PlanRef(NO_PLAN, h.store, x, p, a, inputs);
  }

  lemma LateNames(store: Store, x: Job)
    ensures var existing := StatusList(store, x, ["cluster"]);
            NamesIn(Both(LATE, existing).value.timedOut) == {"cluster"}
            && NamesIn(Both(REF, existing).value.toRollout) == {"cluster"}
            && Both(REF, existing).value.timedOut == [] && Both(LATE, existing).value.toRollout == []
  {
    hide StatusOf;
    NamesListed(store, x);
    SameName(store, x, "cluster");
    var late := Both(LATE, StatusList(store, x, ["cluster"])).value.timedOut;
    assert late[0] in late && late[0].cluster == "cluster";
  }

  lemma BothPlanned(h: HubState)
    ensures var p := Parent(TWO_REFS);
            && PlanOf(p, h, OVERLAPPING).Some?
            && PlanOf(p, h, OVERLAPPING).value.window == {"cluster"}
            && PlanOf(p, h, OVERLAPPING).value.timedOut == {"cluster"}
  {
    hide PlanRef, PlanJob, PlanOf, CannotObserve, Resolve, DesiredSlices, StatusList, NamesIn, AnswerFor, MergeRef,
         Both;
    var p := Parent(TWO_REFS);
    var x := PlanJob(p, ResolutionOf(p, OVERLAPPING), OVERLAPPING);
    TwoRefsNoSlices();
    PlanJobFields(p, ResolutionOf(p, OVERLAPPING), OVERLAPPING, "cluster");
    Observable(h.store, x, "cluster");
    BothAnswers(StatusList(h.store, x, ["cluster"]));
    LateNames(h.store, x);
    NamesListed(h.store, x);
    OneRefMerged(NO_PLAN, h.store, x, p, REF, OVERLAPPING);
    OneRefAdds(NO_PLAN, h.store, x, p, REF, OVERLAPPING);
    var first := PlanRef(NO_PLAN, h.store, x, p, REF, OVERLAPPING).value;
    OneRefMerged(first, h.store, x, p, LATE, OVERLAPPING);
    OneRefAdds(first, h.store, x, p, LATE, OVERLAPPING);
    TwoPlans(p, h, OVERLAPPING, REF, LATE);
  }

  lemma BothAnswers(existing: seq<ClusterStatus>)
    ensures Both(REF, existing).Some? && Both(LATE, existing).Some?
  {
  }

  lemma TwoRefsNoSlices()
    ensures !DesiredSlices(ID, TWO_REFS, "cluster", NoNamespaces).failed
  {
  }

  lemma TwoRefsSelect(now: int)
    ensures Resolve(Parent(TWO_REFS), OneCluster, now).clusters == ["cluster"]
  {
    OneRefSelects(OneCluster);
    OneClusterListed();
    assert [REF, LATE][..1] == [REF];
    assert ClustersOfRef(OneCluster, LATE) == {"cluster"};
    assert UnionOf(OneCluster, [REF, LATE]) == {"cluster"};
  }

  lemma TwoRefsValid()
    ensures ValidSpec(TWO_REFS)
  {
    assert REF in [REF, LATE];
  }

  lemma ReportedRollout(p: ReplicaSet, h: HubState, inputs: Inputs)
    requires PlanOf(p, h, inputs).Some?
    ensures var s, total := ReportedStatus(p, h, inputs), |ResolutionOf(p, inputs).clusters|;
            s.selected == total && s.rollout == Some(PlanSummary(PlanOf(p, h, inputs).value, p, total, inputs.now))
  {
    hide PlanOf, ResolutionOf, JobOf, Cleanup.ReconcileChildren, PlanSummary;
  }

  /** Two refs put one cluster into both windows: one selected cluster, and counts that add up to more than one. */
  lemma CountsExceedTotal(h: HubState)
    ensures var p := Parent(TWO_REFS);
            && SdkContract(OVERLAPPING.sdk) && ReachesChildren(p, h, OVERLAPPING)
            && var s := ReportedStatus(p, h, OVERLAPPING);
               && s.selected == 1 && s.rollout.Some? && s.rollout.value.total == 1
               && s.rollout.value.updating + s.rollout.value.succeeded + s.rollout.value.failed
                  + s.rollout.value.timedOut == 2
  {
    hide PlanOf, Resolve, SdkContract, ValidSpec, ReportedStatus;
    var p := Parent(TWO_REFS);
    BothContract();
    BothPlanned(h);
    TwoRefsSelect(OVERLAPPING.now);
    TwoRefsValid();
    ReportedRollout(p, h, OVERLAPPING);
    Reporting.PassCounts(p, h, OVERLAPPING);
    var plan := PlanOf(p, h, OVERLAPPING).value;
    assert plan.window * plan.timedOut == {"cluster"};
    OnlyClusterPlanned(p, h, OVERLAPPING);
    assert Unaccounted(plan.statuses, plan.window, plan.timedOut) == {};
  }

  lemma OnlyClusterPlanned(p: ReplicaSet, h: HubState, inputs: Inputs)
    requires SdkContract(inputs.sdk) && PlanOf(p, h, inputs).Some? && ResolutionOf(p, inputs).clusters == ["cluster"]
    ensures PlanOf(p, h, inputs).value.statuses.Keys == {"cluster"}
  {
    hide PlanRefs, PlanJob, Resolve, SdkContract;
    PlanFacts(p, h, inputs);
  }

  // ---------------------------------------------------------------- a placement that cannot be read

  const LOST := PlacementRef("lost", "All")
  const WITH_LOST := Spec([LOST, REF], TEMPLATE, None)

  function OnlyPlacement(name: string): Option<Groups> {
    if name == "placement" then OneCluster(name) else None
  }

  const LOSING := Asking(OnlyPlacement, AtRest, NoNamespaces)

  lemma LostResolution(now: int)
    ensures var r := Resolve(Parent(WITH_LOST), OnlyPlacement, now);
            r.failed && r.clusters == ["cluster"] && ClustersOfRef(OnlyPlacement, LOST) == {}
  {
    OneClusterListed();
    assert [LOST, REF][..1] == [LOST] && [LOST][..0] == [];
    assert ClustersOfRef(OnlyPlacement, REF) == {"cluster"};
    assert UnionOf(OnlyPlacement, []) == {} && UnionOf(OnlyPlacement, [LOST]) == {};
    assert LOST in [LOST, REF];
  }

  lemma LostPlanned(h: HubState)
    ensures var p := Parent(WITH_LOST); PlanOf(p, h, LOSING).Some? && PlanOf(p, h, LOSING).value.window == {}
  {
    hide PlanRef, PlanJob, PlanOf, CannotObserve, Resolve, DesiredSlices, StatusList, NamesIn, MergeRef;
    var p := Parent(WITH_LOST);
    var x := PlanJob(p, ResolutionOf(p, LOSING), LOSING);
    LostHasNoSlices();
    PlanJobFields(p, ResolutionOf(p, LOSING), LOSING, "cluster");
    Observable(h.store, x, "cluster");
    LostAddsNothing(h.store, x, p);
    var first := PlanRef(NO_PLAN, h.store, x, p, LOST, LOSING).value;
    OneRefMerged(first, h.store, x, p, REF, LOSING);
    OneRefAdds(first, h.store, x, p, REF, LOSING);
    NamesListed(h.store, x);
    TwoPlans(p, h, LOSING, LOST, REF);
  }

  lemma LostHasNoSlices()
    ensures !DesiredSlices(ID, WITH_LOST, "cluster", NoNamespaces).failed
  {
  }

  lemma LostAddsNothing(store: Store, x: Job, p: ReplicaSet)
    ensures var after := PlanRef(NO_PLAN, store, x, p, LOST, LOSING); after.Some? && after.value.window == {}
  {
    hide Summarize;
  }

  lemma LostValid()
    ensures ValidSpec(WITH_LOST)
  {
    assert LOST in [LOST, REF];
  }

  lemma LostReaches(h: HubState)
    ensures var p := Parent(WITH_LOST);
            Rests(p, h, LOSING) && ReachesChildren(p, h, LOSING) && ResolutionOf(p, LOSING).failed
  {
    hide PlanOf, Resolve, ValidSpec;
    LostResolution(LOSING.now);
    LostPlanned(h);
    LostValid();
  }

  /** One of two placements cannot be read, and the pass deletes a work in a cluster that it may well select. */
  lemma LostRefLosesChildren()
    ensures var p, h := Parent(WITH_LOST), HubWith(false, map[OLD := OldWork()]);
            && ReachesChildren(p, h, LOSING) && ResolutionOf(p, LOSING).failed
            && OLD in h.store && Owner(h.store[OLD].labels) == Some(ID)
            && Delete(OLD) in ReconcilePass(p, h, LOSING).hub.writes
  {
    hide PlanOf, ResolutionOf, Cleanup.ReconcileChildren, ReconcilePass, HubWith, Owner, OldWork, ValidSpec, JobOf;
    var p, h := Parent(WITH_LOST), HubWith(false, map[OLD := OldWork()]);
    LostReaches(h);
    OldWorkOwned(map[OLD := OldWork()]);
    PassOfChildren(p, h, LOSING);
    RestingSweep(p, h, LOSING, OLD);
  }

  const OLD_ACCOUNT := Key(AccountKind, "old", "account")

  function OldAccount(): Child {
    Child(SourceLabels(ID), map[], AccountSpec(true, DEFAULT_VALIDITY, None), map[], 1, false, true)
  }

  lemma OldAccountOwned()
    ensures var store := HubWith(false, map[OLD_ACCOUNT := OldAccount()]).store;
            && OwnChild(store, ID, OLD_ACCOUNT)
            && forall k | k in store :: k.kind.AccountKind?
  {
    OwnedByOwner(ID, SourceLabels(ID));
    assert OwnedBySet(ID, SourceLabels(ID));
    hide Owner, BuildAccount;
    AccountKeyOf(ID, NO_RBAC, "cluster", "placement");
  }

  lemma OldUnselected()
    ensures SelectedByNone(OnlyPlacement, [LOST, REF], "old")
  {
    OneClusterListed();
  }

  /** So go the credentials, once no work is left. */
  lemma LostRefLosesCredentials()
    ensures var p, h := Parent(WITH_LOST), HubWith(false, map[OLD_ACCOUNT := OldAccount()]);
            && ReachesChildren(p, h, LOSING) && ResolutionOf(p, LOSING).failed && OwnChild(h.store, ID, OLD_ACCOUNT)
            && Delete(OLD_ACCOUNT) in ReconcilePass(p, h, LOSING).hub.writes
  {
    hide PlanOf, ResolutionOf, Cleanup.ReconcileChildren, ReconcilePass, Owner, OldAccount, ValidSpec, JobOf,
         SelectedByNone, ReachesChildren, OwnChild;
    var p, h := Parent(WITH_LOST), HubWith(false, map[OLD_ACCOUNT := OldAccount()]);
    hide HubWith;
    LostReaches(h);
    OldAccountOwned();
    OldUnselected();
    RestingTally(p, h, LOSING);
    UnselectedGo(p, h, LOSING, OLD_ACCOUNT);
  }

  // ---------------------------------------------------------------- a template with the access account's name

  const EVERYWHERE := Grant("everywhere", RoleGrant, Some(NamespaceIterator("", [], Some(Selector("", true)))),
                            "reader", map[], map[], ["pods get"])
  const TAKEN := Template(AccessAccountName("set"), "remote", map[], map[], Some(false), None, None)
  const SHARED_NAME := Spec([REF], TAKEN, Some([EVERYWHERE]))
  const ROLLING := Asking(OneCluster, RollAll, NoNamespaces)

  lemma SharedNameAccepted()
    ensures ValidSpec(SHARED_NAME) && !TemplateFits(ID, SHARED_NAME)
  {
    hide StableChildName;
    assert REF in [REF] && EVERYWHERE in [EVERYWHERE];
    assert EVERYWHERE in Grants(SHARED_NAME) && UsesSelector(EVERYWHERE);
    AccessNameNotEmpty();
  }

  lemma AccessNameNotEmpty()
    ensures AccessAccountName("set") != ""
  {
    assert Join(["set", "controller-access"], "-") == "set-controller-access";
  }

  lemma NothingSelected()
    ensures !DesiredSlices(ID, SHARED_NAME, "cluster", NoNamespaces).failed
  {
    hide AccessAccountName;
    assert GrantNamespaces("cluster", EVERYWHERE, NoNamespaces).Some?;
  }

  /** Such a spec is accepted; and on whatever hub, every pass that rolls its cluster out patches the account. */
  lemma SharedNameInput(h: HubState)
    requires var k := Key(AccountKind, "cluster", TAKEN.name); k in h.store ==> Owner(h.store[k].labels) == Some(ID)
    ensures var p := Parent(SHARED_NAME);
            && SdkContract(ROLLING.sdk) && ReachesChildren(p, h, ROLLING) && !TemplateFits(ID, SHARED_NAME)
            && Patch(Key(AccountKind, "cluster", TAKEN.name)) in ReconcilePass(p, h, ROLLING).hub.writes
  {
    hide PlanOf, Resolve, ReconcilePass, Owner, ValidSpec, SdkContract, TemplateFits, DesiredSlices, AccessAccountName;
    var p := Parent(SHARED_NAME);
    RollAllContract();
    SharedNameAccepted();
    NothingSelected();
    SdksDiffer();
    Planned(p, h, ROLLING);
    Reaches(p, h, ROLLING);
    Chosen(p, ROLLING.now);
    SharedNamePatchesForever(p, h, ROLLING, "cluster");
  }

  // ---------------------------------------------------------------- a selector that chooses a fixed namespace

  const CHOOSING := Grant("choosing", RoleGrant, Some(NamespaceIterator("", [], Some(Selector("app", true)))), "reader",
                          map[], map[], ["secrets get"])
  const TWO_READERS := Spec([REF], TEMPLATE, Some([READER, CHOOSING]))

  function ChooseApps(cluster: string, g: Grant): Option<seq<string>> {
    Some(["apps"])
  }

  /** The name check accepts a spec whose two grants then render the same objects. */
  lemma AcceptedSpecClashes()
    ensures ValidSpec(TWO_READERS)
    ensures !DistinctObjects(DesiredSlices(ID, TWO_READERS, "cluster", ChooseApps).slices)
  {
    hide DesiredSlices, DistinctObjects;
    TwoReadersValid();
    BothChooseApps();
    var grants := Grants(TWO_READERS);
    assert SelectorClash("cluster", grants[0], grants[1], ChooseApps);
    AcceptedClashExactly(ID, TWO_READERS, "cluster", ChooseApps);
  }

  lemma TwoReadersValid()
    ensures ValidSpec(TWO_READERS)
  {
    assert REF in [REF] && ObjectKeys(CHOOSING) == {};
  }

  lemma BothChooseApps()
    ensures Targets("cluster", READER, ChooseApps, "apps") && Targets("cluster", CHOOSING, ChooseApps, "apps")
  {
    assert "apps" in ["apps"];
    assert "apps" in (set n | n in ["apps"]);
  }
}
