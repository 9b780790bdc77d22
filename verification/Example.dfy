/** Small sets in one cluster, to see that what the main results ask for can be met, and where they have to stop. */
module Example {
  import opened Model
  import Names
  import Metadata
  import Rbac
  import opened Children
  import Hub
  import FanOut
  import opened Observation
  import opened Rollout
  import opened Planning
  import opened Reconciler
  import opened PassProperties

  const ID := SetId("team", "set", "uid-1")
  const REF := PlacementRef("placement", "All")
  const TEMPLATE := Template("account", "remote", map[], map[], None, None, None)
  const NO_RBAC := Spec([REF], TEMPLATE, None)
  const NOTHING := Status(0, 0, 0, None, None, None, [], map[])

  function Parent(spec: Spec): ReplicaSet {
    ReplicaSet(ID, 1, {Metadata.FINALIZER}, false, spec, NOTHING)
  }

  function OneCluster(name: string): Option<Groups> {
    Some(map["0" := {"cluster"}])
  }

  /** An SDK with nothing left to roll out. */
  function AtRest(ref: PlacementRef, existing: seq<ClusterStatus>): Option<RolloutResult> {
    Some(RolloutResult([], [], 0))
  }

  /** An SDK that rolls out every cluster. */
  function RollAll(ref: PlacementRef, existing: seq<ClusterStatus>): Option<RolloutResult> {
    Some(RolloutResult(existing, [], 0))
  }

  function NoNamespaces(cluster: string, g: Grant): Option<seq<string>> {
    Some([])
  }

  function Asking(placements: Placements, sdk: RolloutOracle, resolve: Resolver): Inputs {
    Inputs(9, placements, sdk, resolve, {}, resolve, {})
  }

  function Account(spec: Spec): Desired {
    BuildAccount(ID, spec, "cluster", "placement")
  }

  /** The account on the hub with a token; `deleted` when someone has deleted it and its agent still holds it. */
  function ReadyAccount(spec: Spec, deleted: bool): Child {
    Child(Account(spec).labels, Account(spec).annotations, Account(spec).spec,
          map[TOKEN_REPORTED := Condition(True, "Reported", 1, Some(7))], 1, deleted, deleted)
  }

  // ---------------------------------------------------------------- the SDKs keep their contract

  lemma AtRestContract()
    ensures SdkContract(AtRest)
  {
    forall ref, existing ensures SdkAnswerOk(existing, AtRest(ref, existing).value) {
    }
  }

  lemma RollAllContract()
    ensures SdkContract(RollAll)
  {
    forall ref, existing ensures SdkAnswerOk(existing, RollAll(ref, existing).value) {
    }
  }

  // ---------------------------------------------------------------- one ref, one cluster

  lemma OneClusterListed()
    ensures Names.SortedList({"cluster"}) == ["cluster"] && GroupClusters(map["0" := {"cluster"}]) == {"cluster"}
  {
    var groups: Groups := map["0" := {"cluster"}];
    assert "cluster" in groups["0"];
    assert GroupClusters(groups) == {"cluster"};
    SortedLength({"cluster"});
    assert Names.SortedList({"cluster"})[0] in Names.SortedList({"cluster"});
  }

  lemma OneRefSelects(placements: Placements)
    requires placements("placement") == OneCluster("placement")
    ensures UnionOf(placements, [REF]) == {"cluster"} && RefsSelecting(placements, [REF], "cluster") == ["placement"]
  {
    OneClusterListed();
    assert [REF][..0] == [];
    assert ClustersOfRef(placements, REF) == {"cluster"};
    assert UnionOf(placements, []) == {} && RefsSelecting(placements, [], "cluster") == [];
  }

  lemma Chosen(p: ReplicaSet, now: int)
    requires p.spec.placementRefs == [REF]
    ensures var r := Resolve(p, OneCluster, now);
            r.clusters == ["cluster"] && r.refs == map["cluster" := ["placement"]] && !r.failed
  {
    hide RefStatuses;
    OneClusterListed();
    OneRefSelects(OneCluster);
  }

  // ---------------------------------------------------------------- its plan

  lemma {:induction false} NoReadErrors(store: Store, id: SetId, ds: seq<Desired>, newest: Option<int>)
    ensures !LookThrough(store, id, ds, {}, newest).trouble.ReadError?
    decreases |ds|
  {
    if |ds| > 0 {
      var l := LookAt(store, id, ds[0], {});
      if Good(l) { NoReadErrors(store, id, ds[1..], NewerTime(newest, l.seen.time)); }
    }
  }

  lemma Observable(store: Store, x: FanOut.Job, c: string)
    requires x.faults == {} && !x.failed(c)
    ensures !CannotObserve(store, x, [c])
  {
    hide LookThrough;
    var front := [x.account(c)] + x.access(c);
    NoReadErrors(store, x.id, front, None);
    NoReadErrors(store, x.id, FanOut.Works(x.works(c)), LookThrough(store, x.id, front, {}, None).seen.time);
  }

  lemma PlanJobFields(p: ReplicaSet, resolution: Resolution, inputs: Inputs, c: string)
    ensures var x := PlanJob(p, resolution, inputs);
            x.id == p.id && x.faults == inputs.planFaults
            && x.failed(c) == Rbac.DesiredSlices(p.id, p.spec, c, inputs.planResolve).failed
  {
    hide SelectorRbacEnabled, DesiredAccountNames, DesiredWorkNames, Rbac.DesiredSlices, AccessChildren, BuildAccount,
         SliceWorks;
  }

  lemma ApplyJobFailed(p: ReplicaSet, resolution: Resolution, plan: Plan, inputs: Inputs, c: string)
    ensures ApplyJob(p, resolution, plan, inputs).failed(c)
            == Rbac.DesiredSlices(p.id, p.spec, c, inputs.resolve).failed
  {
    hide SelectorRbacEnabled, DesiredAccountNames, DesiredWorkNames, Rbac.DesiredSlices, AccessChildren, BuildAccount,
         SliceWorks;
  }

  /** Planning one ref over one cluster works when nothing fails, and takes what the SDK says. */
  lemma OneRefMerged(plan: Plan, store: Store, x: FanOut.Job, p: ReplicaSet, ref: PlacementRef, inputs: Inputs)
    requires inputs.placements(ref.name) == OneCluster(ref.name) && ref.strategy != ""
    requires !CannotObserve(store, x, ["cluster"]) && inputs.sdk(ref, StatusList(store, x, ["cluster"])).Some?
    ensures PlanRef(plan, store, x, p, ref, inputs)
            == Some(MergeRef(plan, StatusMap(store, x, ["cluster"]),
                             inputs.sdk(ref, StatusList(store, x, ["cluster"])).value, ref, p, inputs.now))
    ensures AnswerFor(store, x, ref, inputs) == inputs.sdk(ref, StatusList(store, x, ["cluster"]))
  {
    hide CannotObserve, StatusMap, StatusList, MergeRef;
    OneClusterListed();
    assert OneCluster(ref.name).value != map[] by { assert "0" in OneCluster(ref.name).value; }
  }

  lemma OnePlan(p: ReplicaSet, h: Hub.HubState, inputs: Inputs)
    requires p.spec.placementRefs == [REF]
    ensures PlanOf(p, h, inputs)
            == PlanRef(NO_PLAN, h.store, PlanJob(p, ResolutionOf(p, inputs), inputs), p, REF, inputs)
  {
    hide PlanRef, PlanJob, Resolve;
    var x := PlanJob(p, ResolutionOf(p, inputs), inputs);
    assert [REF][..0] == [];
    assert PlanRefs(h.store, x, p, [], inputs) == Some(NO_PLAN);
  }

  lemma NamesListed(store: Store, x: FanOut.Job)
    ensures NamesIn(StatusList(store, x, ["cluster"])) == {"cluster"} && NamesIn([]) == {}
  {
    hide StatusOf;
    var list := StatusList(store, x, ["cluster"]);
    SameName(store, x, "cluster");
    assert list[0] in list && list[0].cluster == "cluster";
  }

  lemma SameName(store: Store, x: FanOut.Job, c: string)
    ensures StatusOf(store, x, c).cluster == c
  {
    hide ObserveCluster;
  }

  /** When nothing fails the plan works, and its window is what the SDK rolls out. */
  lemma Planned(p: ReplicaSet, h: Hub.HubState, inputs: Inputs)
    requires p.spec.placementRefs == [REF] && inputs.placements == OneCluster && inputs.planFaults == {}
    requires !Rbac.DesiredSlices(p.id, p.spec, "cluster", inputs.planResolve).failed
    requires inputs.sdk == AtRest || inputs.sdk == RollAll
    ensures PlanOf(p, h, inputs).Some?
    ensures var plan := PlanOf(p, h, inputs).value;
            && plan.window == (if inputs.sdk == AtRest then {} else {"cluster"})
            && plan.timedOut == {} && plan.recheck == 0
  {
    hide PlanRef, PlanJob, PlanOf, CannotObserve, Resolve, Rbac.DesiredSlices, StatusList, NamesIn, AnswerFor, MergeRef;
    var x := PlanJob(p, ResolutionOf(p, inputs), inputs);
    PlanJobFields(p, ResolutionOf(p, inputs), inputs, "cluster");
    Observable(h.store, x, "cluster");
    OnePlan(p, h, inputs);
    OneRefMerged(NO_PLAN, h.store, x, p, REF, inputs);
    OneRefAdds(NO_PLAN, h.store, x, p, REF, inputs);
    NamesListed(h.store, x);
    SdksDiffer();
  }

  lemma SdksDiffer()
    ensures forall ref, existing | |existing| > 0 :: AtRest(ref, existing) != RollAll(ref, existing)
    ensures AtRest != RollAll
  {
    var existing := [ClusterStatus("cluster", ToApply, None)];
    assert AtRest(REF, existing) != RollAll(REF, existing);
  }

  /** With the SDK at rest the plan's only status is the observed one. */
  lemma RestingStatus(p: ReplicaSet, h: Hub.HubState, inputs: Inputs)
    requires p.spec.placementRefs == [REF] && inputs.placements == OneCluster && inputs.planFaults == {}
    requires !Rbac.DesiredSlices(p.id, p.spec, "cluster", inputs.planResolve).failed && inputs.sdk == AtRest
    requires PlanOf(p, h, inputs).Some?
    ensures PlanOf(p, h, inputs).value.statuses
            == map["cluster" := StatusOf(h.store, PlanJob(p, ResolutionOf(p, inputs), inputs), "cluster")]
  {
    hide PlanRef, PlanJob, PlanOf, CannotObserve, Resolve, Rbac.DesiredSlices, StatusList, StatusOf, MergeRef;
    var x := PlanJob(p, ResolutionOf(p, inputs), inputs);
    PlanJobFields(p, ResolutionOf(p, inputs), inputs, "cluster");
    Observable(h.store, x, "cluster");
    OnePlan(p, h, inputs);
    OneRefMerged(NO_PLAN, h.store, x, p, REF, inputs);
    NothingMerged(StatusMap(h.store, x, ["cluster"]), REF, p, inputs.now);
  }

  lemma NothingMerged(observed: map<string, ClusterStatus>, ref: PlacementRef, p: ReplicaSet, now: int)
    ensures MergeRef(NO_PLAN, observed, RolloutResult([], [], 0), ref, p, now).statuses == observed
  {
    hide Summarize, PreviousRollout;
    assert NO_PLAN.statuses + observed == observed;
  }

  lemma Reaches(p: ReplicaSet, h: Hub.HubState, inputs: Inputs)
    requires p == Parent(p.spec) && ValidSpec(p.spec) && p.spec.placementRefs == [REF]
    requires inputs.placements == OneCluster && PlanOf(p, h, inputs).Some?
    ensures ReachesChildren(p, h, inputs)
  {
    hide PlanOf, ValidSpec;
    Chosen(p, inputs.now);
  }
}
