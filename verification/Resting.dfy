/** Passes with nothing to roll out: what a set at rest reports, also where that says less than one might expect. */
module Resting {
  import opened Model
  import Names
  import opened Metadata
  import Rbac
  import opened Children
  import opened Hub
  import opened FanOut
  import opened Cleanup
  import opened Observation
  import Rollout
  import Planning
  import opened StatusReport
  import opened Reconciler
  import opened PassProperties
  import opened Example

  // ---------------------------------------------------------------- a pass that skips its cluster

  lemma SkippedStep(h: HubState, c: string, x: Job)
    requires x.window == {}
    ensures var (after, r) := StepCluster(h, c, x);
            after == h && r.ready == Started(x, c) && r.conflicts == 0 && r.failures == 0
            && (!Started(x, c) ==> r.summary == None)
  {
    hide Contribution, ApplyCluster;
  }

  lemma SkippedFanOut(h: HubState, c: string, x: Job)
    requires x.window == {}
    ensures var (after, t) := FanOutAll(h, [c], x);
            after == h && t.ready == Bit(Started(x, c)) && t.conflicts == 0 && t.failures == 0
            && (!Started(x, c) ==> t.summary == None)
  {
    hide StepCluster, AddToRefs, Plus, Started;
    SkippedStep(h, c, x);
    assert [c][..0] == [];
    assert FanOutAll(h, [], x) == (h, EMPTY);
  }

  /** The set's own children lie in the cluster. */
  ghost predicate AllHere(store: Store) {
    forall k | k in store && Owner(store[k].labels) == Some(ID) :: k.cluster == "cluster"
  }

  lemma NothingStale(h: HubState, works: map<string, set<string>>, accounts: set<string>)
    requires AllHere(h.store)
    ensures DeleteStale(h, ID, {"cluster"}, {}, works, accounts, {}) == Swept(h, false, false)
  {
    hide Owner, OwnedBySet;
    OwnedKeys(h.store, ID, WorkKind);
    OwnedKeys(h.store, ID, AccountKind);
    assert StaleWorks(h.store, ID, {"cluster"}, {}, works) == {};
    assert StaleAccounts(h.store, ID, {"cluster"}, {}, accounts) == {};
    assert DeleteAll(h, {}, {}) == h;
  }

  lemma ElsewhereStale(h: HubState, works: map<string, set<string>>, accounts: set<string>, k: Key)
    requires k in h.store && k.kind.WorkKind? && Owner(h.store[k].labels) == Some(ID) && k.cluster != "cluster"
    ensures var swept := DeleteStale(h, ID, {"cluster"}, {}, works, accounts, {});
            swept.pending && !swept.failed && Delete(k) in swept.hub.writes
  {
    hide Owner, OwnedBySet;
    OwnedKeys(h.store, ID, WorkKind);
    assert k in StaleWorks(h.store, ID, {"cluster"}, {}, works);
  }

  /** A pass of the plan's SDK at rest: the one cluster is skipped, and counts as ready if it was observed so. */
  ghost predicate Rests(p: ReplicaSet, h: HubState, inputs: Inputs) {
    && PlanOf(p, h, inputs).Some? && PlanOf(p, h, inputs).value.window == {}
    && p.id == ID && inputs.faults == {} && ResolutionOf(p, inputs).clusters == ["cluster"]
  }

  lemma JobRests(h: HubState, x: Job)
    requires x.window == {} && x.id == ID && x.faults == {}
    ensures var r := ReconcileChildren(h, ["cluster"], {}, x);
            && r.tally.ready == r.result.ready == Bit(Started(x, "cluster"))
            && r.result.conflicts == 0 && r.result.failures == 0
            && (!Started(x, "cluster") ==> r.tally.summary == None)
            && (AllHere(h.store) ==> !r.result.pending && !r.result.failed && r.hub == h)
  {
    hide Started, DeleteStale, FanOutAll, AllHere;
    SkippedFanOut(h, "cluster", x);
    assert Selected(["cluster"]) == {"cluster"};
    if AllHere(h.store) { NothingStale(h, FanOutAll(h, ["cluster"], x).1.works, x.accounts); }
  }

  lemma RestingTally(p: ReplicaSet, h: HubState, inputs: Inputs)
    requires Rests(p, h, inputs)
    ensures var r, x := ChildrenReconciled(p, h, inputs), JobOf(p, h, inputs);
            && r.tally.ready == r.result.ready == Bit(Started(x, "cluster"))
            && r.result.conflicts == 0 && r.result.failures == 0
            && (!Started(x, "cluster") ==> r.tally.summary == None)
            && (AllHere(h.store) ==> !r.result.pending && !r.result.failed && r.hub == h)
  {
    hide ApplyJob, PlanOf, ResolutionOf, Started, ReconcileChildren, AllHere;
    JobFields(p, ResolutionOf(p, inputs), PlanOf(p, h, inputs).value, inputs);
    JobRests(h, JobOf(p, h, inputs));
  }

  lemma JobSweeps(h: HubState, x: Job, k: Key)
    requires x.window == {} && x.id == ID && x.faults == {}
    requires k in h.store && k.kind.WorkKind? && Owner(h.store[k].labels) == Some(ID) && k.cluster != "cluster"
    ensures var r := ReconcileChildren(h, ["cluster"], {}, x);
            r.result.pending && !r.result.failed && Delete(k) in r.hub.writes
  {
    hide Started, DeleteStale, FanOutAll, Owner;
    SkippedFanOut(h, "cluster", x);
    assert Selected(["cluster"]) == {"cluster"};
    ElsewhereStale(h, FanOutAll(h, ["cluster"], x).1.works, x.accounts, k);
  }

  lemma RestingSweep(p: ReplicaSet, h: HubState, inputs: Inputs, k: Key)
    requires Rests(p, h, inputs)
    requires k in h.store && k.kind.WorkKind? && Owner(h.store[k].labels) == Some(ID) && k.cluster != "cluster"
    ensures var r := ChildrenReconciled(p, h, inputs);
            r.result.pending && !r.result.failed && Delete(k) in r.hub.writes
  {
    hide ApplyJob, PlanOf, ResolutionOf, ReconcileChildren, Owner;
    JobFields(p, ResolutionOf(p, inputs), PlanOf(p, h, inputs).value, inputs);
    JobSweeps(h, JobOf(p, h, inputs), k);
  }

  // ---------------------------------------------------------------- a set without RBAC

  const RESTING := Asking(OneCluster, AtRest, NoNamespaces)

  /** One ready account, which someone may have deleted, and whatever else is on the hub outside the cluster. */
  function HubWith(deleted: bool, others: Store): HubState {
    HubState(others[Account(NO_RBAC).key := ReadyAccount(NO_RBAC, deleted)], {})
  }

  lemma NoSlices(resolve: Resolver)
    ensures Rbac.DesiredSlices(ID, NO_RBAC, "cluster", resolve) == Rbac.Compiled([], false)
  {
    assert Names.SortedList(Rbac.TargetNamespaces("cluster", [], resolve)) == [];
  }

  lemma NoOtherChildren()
    ensures DesiredChildren(ID, NO_RBAC, "cluster", "placement", []) == [Account(NO_RBAC)]
  {
    hide BuildAccount;
    assert AccessChildren(ID, NO_RBAC, "cluster", "placement") == [];
    assert SliceChildren(ID, "cluster", "placement", []) == [];
  }

  lemma NoRbacValid()
    ensures ValidSpec(NO_RBAC)
  {
    assert REF in [REF];
  }

  lemma AccountSettled(deleted: bool, others: Store)
    ensures Settled(HubWith(deleted, others).store, ID, Account(NO_RBAC), {})
  {
    hide ChildLabels, Owner;
    ChildLabelsOwned(ID, "placement", map[]);
  }

  /** Observed Succeeded, whether or not the account has been deleted. */
  lemma Observed(deleted: bool, others: Store)
    ensures var p, store := Parent(NO_RBAC), HubWith(deleted, others).store;
            Good(ObserveCluster(store, PlanJob(p, ResolutionOf(p, RESTING), RESTING), "cluster"))
  {
    hide JobFor, ChildrenOf, ObserveCluster, Settled, Rollout.Resolve, Rbac.DesiredSlices, DesiredChildren;
    var p := Parent(NO_RBAC);
    var resolution := ResolutionOf(p, RESTING);
    var x := PlanJob(p, resolution, RESTING);
    Chosen(p, RESTING.now);
    PlanJobFields(p, resolution, RESTING, "cluster");
    JobForChildren(ID, NO_RBAC, resolution.refs, {}, map[], NoNamespaces, {}, "cluster");
    NoSlices(NoNamespaces);
    NoOtherChildren();
    AccountSettled(deleted, others);
    ObservationIsConjunction(HubWith(deleted, others).store, x, "cluster");
  }

  lemma NoRbacRests(deleted: bool, others: Store)
    ensures var p, h := Parent(NO_RBAC), HubWith(deleted, others);
            Rests(p, h, RESTING) && ReachesChildren(p, h, RESTING) && Started(JobOf(p, h, RESTING), "cluster")
            && PlanOf(p, h, RESTING).value.timedOut == {} && PlanOf(p, h, RESTING).value.statuses.Keys == {"cluster"}
  {
    hide PlanOf, ObserveCluster, Rollout.Resolve, Rbac.DesiredSlices, PlanJob, ApplyJob, ValidSpec;
    var p, h := Parent(NO_RBAC), HubWith(deleted, others);
    NoSlices(NoNamespaces);
    Planned(p, h, RESTING);
    RestingStatus(p, h, RESTING);
    Chosen(p, RESTING.now);
    NoRbacValid();
    Reaches(p, h, RESTING);
    Observed(deleted, others);
    SeenSucceeded(h.store, PlanJob(p, ResolutionOf(p, RESTING), RESTING));
    JobFields(p, ResolutionOf(p, RESTING), PlanOf(p, h, RESTING).value, RESTING);
  }

  lemma SeenSucceeded(store: Store, x: Job)
    requires Good(ObserveCluster(store, x, "cluster"))
    ensures Planning.StatusOf(store, x, "cluster").state == RolloutState.Succeeded
  {
    hide ObserveCluster;
  }

  lemma OnlyAccountHere(deleted: bool)
    ensures AllHere(HubWith(deleted, map[]).store)
  {
    hide Owner, ChildLabels;
  }

  /** A set at rest reports Ready and rolled out; and it does so even when its only account has been deleted and is on
      its way out, since nothing looks at deletion marks. */
  lemma AtRestReports(deleted: bool)
    ensures var p, h := Parent(NO_RBAC), HubWith(deleted, map[]);
            && Planning.SdkContract(RESTING.sdk) && ReachesChildren(p, h, RESTING)
            && ConditionTrue(ReportedStatus(p, h, RESTING).conditions, READY)
            && ConditionTrue(ReportedStatus(p, h, RESTING).conditions, ROLLED_OUT)
            && ReportedStatus(p, h, RESTING).ready == 1
    ensures HubWith(deleted, map[]).store[Account(NO_RBAC).key].terminating == deleted
  {
    hide PlanOf, FullStatus, JobOf, ReconcileChildren, Planning.SdkContract, ResolutionOf, ReachesChildren, HubWith,
         AllHere;
    var p, h := Parent(NO_RBAC), HubWith(deleted, map[]);
    AtRestContract();
    NoRbacRests(deleted, map[]);
    OnlyAccountHere(deleted);
    RestingTally(p, h, RESTING);
    RestingFlags(deleted);
    var plan, r, x := PlanOf(p, h, RESTING).value, ChildrenReconciled(p, h, RESTING), JobOf(p, h, RESTING);
    ReadyExactly(p, ResolutionOf(p, RESTING), plan, x.selector, r.tally, r.result, RESTING.now);
    RolledOutExactly(p, ResolutionOf(p, RESTING), plan, x.selector, r.tally, r.result, RESTING.now);
    ReportedReady(p, h, RESTING);
    JobFieldsOf(p, h, RESTING);
    assert |plan.statuses| == |{"cluster"}| == 1;
    var previous := Planning.RolloutConditions(p.status.rollout);
    Rollout.CompletedExactly({}, {}, plan.statuses, previous, p.generation, RESTING.now);
  }

  lemma RestingFlags(deleted: bool)
    ensures HubWith(deleted, map[]).store[Account(NO_RBAC).key].terminating == deleted
  {
    hide BuildAccount;
  }

  lemma ReportedReady(p: ReplicaSet, h: HubState, inputs: Inputs)
    requires PlanOf(p, h, inputs).Some?
    ensures ReportedStatus(p, h, inputs).ready == ChildrenReconciled(p, h, inputs).result.ready
  {
    hide PlanOf, ReconcileChildren, JobOf, ResolutionOf;
  }

  lemma JobFieldsOf(p: ReplicaSet, h: HubState, inputs: Inputs)
    requires PlanOf(p, h, inputs).Some?
    ensures JobOf(p, h, inputs).statuses == PlanOf(p, h, inputs).value.statuses
  {
    hide PlanOf, ResolutionOf, ApplyJob;
    JobFields(p, ResolutionOf(p, inputs), PlanOf(p, h, inputs).value, inputs);
  }
}
