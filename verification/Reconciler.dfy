/** One reconcile pass over a set (Reconcile, reconcileChildren, deleteStaleChildren, reconcileDelete). */
module Reconciler {
  import opened Model
  import opened Metadata
  import opened Rbac
  import opened Children
  import opened Hub
  import opened FanOut
  import FanOutLoop
  import opened Cleanup
  import Rollout
  import Planning
  import Validation
  import opened StatusReport

  // ---------------------------------------------------------------- the job of a spec

  function Primary(refs: map<string, seq<string>>, cluster: string): string {
    if cluster in refs && |refs[cluster]| > 0 then refs[cluster][0] else ""
  }

  function SliceWorks(id: SetId, cluster: string, ref: string, slices: seq<Slice>): (r: seq<SliceWork>)
    ensures |r| == |slices|
  {
    seq(|slices|, i requires 0 <= i < |slices| => SliceWork(BuildWork(id, cluster, ref, slices[i]), slices[i].hash))
  }

  function JobFor(id: SetId, spec: Spec, refs: map<string, seq<string>>, window: set<string>,
                  statuses: map<string, ClusterStatus>, resolve: Resolver, faults: set<Call>): Job {
    Job(id, RbacEnabled(spec), SelectorRbacEnabled(spec),
        c => AccessChildren(id, spec, c, Primary(refs, c)),
        c => BuildAccount(id, spec, c, Primary(refs, c)),
        c => SliceWorks(id, c, Primary(refs, c), DesiredSlices(id, spec, c, resolve).slices),
        c => DesiredSlices(id, spec, c, resolve).failed,
        c => DesiredWorkNames(id, spec, DesiredSlices(id, spec, c, resolve).slices),
        DesiredAccountNames(id, spec), refs, window, statuses, faults)
  }

  lemma JobForChildren(id: SetId, spec: Spec, refs: map<string, seq<string>>, window: set<string>,
                       statuses: map<string, ClusterStatus>, resolve: Resolver, faults: set<Call>, c: string)
    ensures ChildrenOf(JobFor(id, spec, refs, window, statuses, resolve, faults), c)
            == DesiredChildren(id, spec, c, Primary(refs, c), DesiredSlices(id, spec, c, resolve).slices)
  {
    hide DesiredSlices, AccessChildren, BuildAccount, BuildWork;
    var slices := DesiredSlices(id, spec, c, resolve).slices;
    assert Works(SliceWorks(id, c, Primary(refs, c), slices)) == SliceChildren(id, c, Primary(refs, c), slices);
  }

  lemma SliceWorkOk(id: SetId, cluster: string, ref: string, slice: Slice)
    ensures var d := BuildWork(id, cluster, ref, slice);
            d.key.kind.WorkKind? && SPEC_HASH in d.annotations && d.annotations[SPEC_HASH] == slice.hash
  {
    KeysDistinct();
  }

  lemma JobForCovers(id: SetId, spec: Spec, refs: map<string, seq<string>>, window: set<string>,
                     statuses: map<string, ClusterStatus>, resolve: Resolver, faults: set<Call>, c: string)
    ensures var x := JobFor(id, spec, refs, window, statuses, resolve, faults);
            (forall n | n in x.accounts :: Has(ChildrenOf(x, c), Key(AccountKind, c, n)))
            && (forall n | n in x.names(c) :: Has(ChildrenOf(x, c), Key(WorkKind, c, n)))
  {
    hide DesiredSlices, DesiredChildren, ChildrenOf, DesiredWorkNames, DesiredAccountNames;
    var x := JobFor(id, spec, refs, window, statuses, resolve, faults);
    var ref, slices := Primary(refs, c), DesiredSlices(id, spec, c, resolve).slices;
    JobForChildren(id, spec, refs, window, statuses, resolve, faults, c);
    forall n | n in x.accounts
      ensures Has(ChildrenOf(x, c), Key(AccountKind, c, n))
    {
      DesiredAccountCovered(id, spec, c, ref, slices, n);
    }
    forall n | n in x.names(c)
      ensures Has(ChildrenOf(x, c), Key(WorkKind, c, n))
    {
      DesiredWorkCovered(id, spec, c, ref, slices, n);
    }
  }

  lemma JobForOwns(id: SetId, spec: Spec, refs: map<string, seq<string>>, window: set<string>,
                   statuses: map<string, ClusterStatus>, resolve: Resolver, faults: set<Call>, c: string)
    ensures var x := JobFor(id, spec, refs, window, statuses, resolve, faults);
            forall d | d in ChildrenOf(x, c) ::
              d.key.cluster == c && Owner(d.labels) == Some(id)
              && (if d.key.kind.AccountKind? then d.key.name in x.accounts else d.key.name in x.names(c))
  {
    hide DesiredSlices, DesiredChildren, Owner, ChildrenOf, DesiredWorkNames, DesiredAccountNames;
    var x := JobFor(id, spec, refs, window, statuses, resolve, faults);
    var ref, slices := Primary(refs, c), DesiredSlices(id, spec, c, resolve).slices;
    JobForChildren(id, spec, refs, window, statuses, resolve, faults, c);
    forall d | d in ChildrenOf(x, c) { DesiredChildOwned(id, spec, c, ref, slices, d); }
  }

  lemma SliceWorksOk(id: SetId, cluster: string, ref: string, slices: seq<Slice>)
    ensures forall w | w in SliceWorks(id, cluster, ref, slices) ::
              w.work.key.kind.WorkKind? && SPEC_HASH in w.work.annotations && w.work.annotations[SPEC_HASH] == w.hash
  {
    hide BuildWork;
    forall i | 0 <= i < |slices| { SliceWorkOk(id, cluster, ref, slices[i]); }
  }

  lemma JobForClusterOk(id: SetId, spec: Spec, refs: map<string, seq<string>>, window: set<string>,
                        statuses: map<string, ClusterStatus>, resolve: Resolver, faults: set<Call>, c: string)
    ensures ClusterOk(JobFor(id, spec, refs, window, statuses, resolve, faults), c)
  {
    hide DesiredSlices, Owner, ChildrenOf, DesiredWorkNames, DesiredAccountNames, Has, SliceWorks;
    JobForOwns(id, spec, refs, window, statuses, resolve, faults, c);
    JobForCovers(id, spec, refs, window, statuses, resolve, faults, c);
    SliceWorksOk(id, c, Primary(refs, c), DesiredSlices(id, spec, c, resolve).slices);
  }

  /** The job of any spec is consistent, whatever labels and grants the user wrote. */
  lemma JobForOk(id: SetId, spec: Spec, refs: map<string, seq<string>>, window: set<string>,
                 statuses: map<string, ClusterStatus>, resolve: Resolver, faults: set<Call>)
    ensures JobOk(JobFor(id, spec, refs, window, statuses, resolve, faults))
  {
    hide JobFor, ClusterOk;
    forall c { JobForClusterOk(id, spec, refs, window, statuses, resolve, faults, c); }
  }

  lemma JobForAgrees(id: SetId, spec: Spec, refs: map<string, seq<string>>, window: set<string>,
                     statuses: map<string, ClusterStatus>, resolve: Resolver, faults: set<Call>, c: string)
    requires DigestsApart(id, spec, c, resolve)
    ensures KeysAgree(ChildrenOf(JobFor(id, spec, refs, window, statuses, resolve, faults), c))
            <==> TemplateFits(id, spec)
  {
    hide DesiredSlices, DesiredChildren, DigestsApart, TemplateFits, KeysAgree, ChildrenOf, JobFor;
    JobForChildren(id, spec, refs, window, statuses, resolve, faults, c);
    DesiredKeysAgree(id, spec, c, Primary(refs, c), resolve);
  }

  lemma JobForWorksAgree(id: SetId, spec: Spec, refs: map<string, seq<string>>, window: set<string>,
                         statuses: map<string, ClusterStatus>, resolve: Resolver, faults: set<Call>, c: string)
    requires DigestsApart(id, spec, c, resolve)
    ensures WorksAgree(ChildrenOf(JobFor(id, spec, refs, window, statuses, resolve, faults), c))
  {
    hide DesiredSlices, DesiredChildren, DigestsApart, WorksAgree, ChildrenOf, JobFor;
    JobForChildren(id, spec, refs, window, statuses, resolve, faults, c);
    WorkKeysAgree(id, spec, c, Primary(refs, c), resolve);
  }

  // ---------------------------------------------------------------- one pass

  const CLEANUP_REQUEUE := 10
  const SELECTOR_REQUEUE := 30

  datatype Requeue = Retry | Stop | After(seconds: int)

  /** What a pass leaves behind; `keep` are the clusters whose namespace caches it keeps. */
  datatype Pass = Pass(parent: ReplicaSet, hub: HubState, requeue: Requeue, keep: set<string>)

  function PatchedStatus(p: ReplicaSet, status: Status, faults: set<Call>): ReplicaSet {
    if PatchStatus in faults then p else p.(status := status)
  }

  function StatusRequeue(p: ReplicaSet, status: Status, faults: set<Call>, otherwise: Requeue): Requeue {
    if status != p.status && PatchStatus in faults then Retry else otherwise
  }

  function PlanJob(p: ReplicaSet, resolution: Rollout.Resolution, inputs: Inputs): Job {
    JobFor(p.id, p.spec, resolution.refs, {}, map[], inputs.planResolve, inputs.planFaults)
  }

  function ApplyJob(p: ReplicaSet, resolution: Rollout.Resolution, plan: Planning.Plan, inputs: Inputs): Job {
    JobFor(p.id, p.spec, resolution.refs, plan.window, plan.statuses, inputs.resolve, inputs.faults)
  }

  predicate ValidSpec(spec: Spec) {
    Validation.OtherwiseValid(spec) && Validation.ObjectNamesUnique(Grants(spec))
  }

  function EarlyPass(p: ReplicaSet, h: HubState, base: Status, reason: string, inputs: Inputs): (r: Pass)
    ensures r.keep == {}
  {
    var status := base.(conditions := EarlyReturn(base.conditions, reason, p.generation, inputs.now));
    Pass(PatchedStatus(p, status, inputs.faults), h, StatusRequeue(p, status, inputs.faults, Stop), {})
  }

  function Keep(p: ReplicaSet, resolution: Rollout.Resolution): set<string> {
    if SelectorRbacEnabled(p.spec) then Selected(resolution.clusters) else {}
  }

  function NextPass(pending: bool, recheck: int, selector: bool): Requeue {
    if pending then After(CLEANUP_REQUEUE)
    else if recheck > 0 then After(recheck)
    else if selector then After(SELECTOR_REQUEUE)
    else Stop
  }

  function ChildPass(p: ReplicaSet, h: HubState, resolution: Rollout.Resolution, plan: Planning.Plan,
                     inputs: Inputs): Pass {
    var x := ApplyJob(p, resolution, plan, inputs);
    var r := ReconcileChildren(h, resolution.clusters, plan.window, x);
    var status := FullStatus(p, resolution, plan, x.selector, r.tally, r.result, inputs.now);
    Pass(PatchedStatus(p, status, inputs.faults), r.hub,
         if r.result.failed then Retry
             else StatusRequeue(p, status, inputs.faults, NextPass(r.result.pending, plan.recheck, x.selector)),
         Keep(p, resolution))
  }

  function ResolvedPass(p: ReplicaSet, h: HubState, inputs: Inputs): Pass {
    var resolution := Rollout.Resolve(p, inputs.placements, inputs.now);
    if resolution.failed && |resolution.clusters| == 0 then
      EarlyPass(p, h, NewStatus(p).(placements := resolution.placements), "PlacementUnavailable", inputs)
    else match Planning.PlanRefs(h.store, PlanJob(p, resolution, inputs), p, p.spec.placementRefs, inputs)
      case None =>
        var status := UnplannedStatus(p, resolution, inputs.now);
        Pass(PatchedStatus(p, status, inputs.faults), h, Retry, Keep(p, resolution))
      case Some(plan) => ChildPass(p, h, resolution, plan, inputs)
  }

  function WaitStatus(p: ReplicaSet, now: int): Status {
    var base := NewStatus(p).(observedGeneration := p.generation);
    var blocked := SetCondition(base.conditions, CLEANUP_BLOCKED, True, "WaitingForOCMCleanup", p.generation, now);
    base.(conditions := SetCondition(blocked, READY, False, "CleanupBlocked", p.generation, now))
  }

  function DeletedPass(p: ReplicaSet, h: HubState, inputs: Inputs): (r: Pass)
    ensures r.keep == {}
  {
    var (hub, verdict) := DeletePass(h, p.id, inputs.faults);
    match verdict
    case DeleteError => Pass(p, hub, Retry, {})
    case WaitFor(_, _) =>
      var status := WaitStatus(p, inputs.now);
      Pass(PatchedStatus(p, status, inputs.faults), hub,
           StatusRequeue(p, status, inputs.faults, After(CLEANUP_REQUEUE)), {})
    case CleanedUp =>
      if FINALIZER !in p.finalizers then Pass(p, hub, Stop, {})
      else if PatchFinalizers in inputs.faults then Pass(p, hub, Retry, {})
      else Pass(p.(finalizers := p.finalizers - {FINALIZER}), hub, Stop, {})
  }

  function ReconcilePass(p: ReplicaSet, h: HubState, inputs: Inputs): Pass {
    if p.deleting then DeletedPass(p, h, inputs)
    else if FINALIZER !in p.finalizers then
      if PatchFinalizers in inputs.faults then Pass(p, h, Retry, {})
      else Pass(p.(finalizers := p.finalizers + {FINALIZER}), h, Stop, {})
    else if !ValidSpec(p.spec) then EarlyPass(p, h, NewStatus(p), "InvalidSpec", inputs)
    else ResolvedPass(p, h, inputs)
  }

  // ---------------------------------------------------------------- the pass on the hub

  ghost predicate SetsOk(sets: map<SetName, ReplicaSet>) {
    forall n | n in sets :: NameOf(sets[n].id) == n && !(sets[n].deleting && sets[n].finalizers == {})
  }

  datatype Reconciliation = Reconciliation(sets: map<SetName, ReplicaSet>, hub: HubState, requeue: Requeue,
      keep: Option<set<string>>)

  /** A pass for a set that no longer exists does nothing. */
  function ReconcileNamed(sets: map<SetName, ReplicaSet>, h: HubState, name: SetName, inputs: Inputs): Reconciliation {
    if name !in sets then Reconciliation(sets, h, Stop, None)
    else
      var pass := ReconcilePass(sets[name], h, inputs);
      Reconciliation(Put(sets, pass.parent), pass.hub, pass.requeue, Some(pass.keep))
  }

  /** What the client holds when a pass has come to its end. */
  ghost predicate Ends(hub: Client, before: map<SetName, ReplicaSet>, pass: Pass, requeue: Requeue)
    reads hub
  {
    hub.sets == Put(before, pass.parent) && hub.View() == pass.hub && requeue == pass.requeue
  }

  ghost predicate Current(hub: Client, p: ReplicaSet)
    reads hub
  {
    SetsOk(hub.sets) && NameOf(p.id) in hub.sets && hub.sets[NameOf(p.id)] == p
  }

  lemma PutSame(sets: map<SetName, ReplicaSet>, p: ReplicaSet)
    requires SetsOk(sets) && NameOf(p.id) in sets && sets[NameOf(p.id)] == p
    ensures Put(sets, p) == sets && !(p.deleting && p.finalizers == {})
  {
  }

  method ReconcileDelete(hub: Client, p: ReplicaSet, inputs: Inputs) returns (requeue: Requeue)
    requires Current(hub, p) && p.deleting
    modifies hub
    ensures Ends(hub, old(hub.sets), DeletedPass(p, old(hub.View()), inputs), requeue)
  {
    PutSame(hub.sets, p);
    var verdict := DeleteOwnChildren(hub, p.id, inputs.faults);
    match verdict {
      case DeleteError =>
        return Retry;
      case WaitFor(_, _) =>
        var failed := hub.PatchStatus(p, WaitStatus(p, inputs.now), inputs.faults);
        return if failed then Retry else After(CLEANUP_REQUEUE);
      case CleanedUp =>
        if FINALIZER !in p.finalizers {
          return Stop;
        }
        var failed := hub.PatchFinalizers(p.(finalizers := p.finalizers - {FINALIZER}), inputs.faults);
        return if failed then Retry else Stop;
    }
  }

  method FinishEarly(hub: Client, p: ReplicaSet, base: Status, reason: string, inputs: Inputs)
    returns (requeue: Requeue)
    requires Current(hub, p)
    modifies hub
    ensures Ends(hub, old(hub.sets), EarlyPass(p, old(hub.View()), base, reason, inputs), requeue)
  {
    PutSame(hub.sets, p);
    var status := base.(conditions := EarlyReturn(base.conditions, reason, p.generation, inputs.now));
    var failed := hub.PatchStatus(p, status, inputs.faults);
    return if failed then Retry else Stop;
  }

  method ReconcileChildrenOf(hub: Client, clusters: seq<string>, cleanup: set<string>, x: Job)
    returns (t: Tally, result: ChildResult)
    modifies hub`store, hub`writes
    ensures Reconciled(hub.View(), t, result) == ReconcileChildren(old(hub.View()), clusters, cleanup, x)
  {
    t := FanOutLoop.ReconcileClusters(hub, clusters, x);
    if t.failures > 0 {
      return t, ChildResult(t.ready, t.conflicts, t.failures, false, true);
    }
    var pending, failed := DeleteStaleChildren(hub, x.id, Selected(clusters), cleanup, t.works, x.accounts, x.faults);
    result := ChildResult(t.ready, t.conflicts, 0, pending, failed);
  }

  method ReconcilePlanned(hub: Client, p: ReplicaSet, resolution: Rollout.Resolution, plan: Planning.Plan,
                          inputs: Inputs)
    returns (requeue: Requeue)
    requires Current(hub, p)
    modifies hub
    ensures Ends(hub, old(hub.sets), ChildPass(p, old(hub.View()), resolution, plan, inputs), requeue)
    ensures ChildPass(p, old(hub.View()), resolution, plan, inputs).keep == Keep(p, resolution)
  {
    hide ReconcileChildren, FullStatus, ApplyJob, Put, SetsOk, Keep;
    PutSame(hub.sets, p);
    var x := ApplyJob(p, resolution, plan, inputs);
    var t, result := ReconcileChildrenOf(hub, resolution.clusters, plan.window, x);
    var status := FullStatus(p, resolution, plan, x.selector, t, result, inputs.now);
    var failed := hub.PatchStatus(p, status, inputs.faults);
    if result.failed || failed {
      return Retry;
    }
    if result.pending {
      return After(CLEANUP_REQUEUE);
    }
    if plan.recheck > 0 {
      return After(plan.recheck);
    }
    if x.selector {
      return After(SELECTOR_REQUEUE);
    }
    return Stop;
  }

  method ReconcileResolved(hub: Client, p: ReplicaSet, inputs: Inputs) returns (requeue: Requeue, keep: set<string>)
    requires Current(hub, p)
    modifies hub
    ensures Ends(hub, old(hub.sets), ResolvedPass(p, old(hub.View()), inputs), requeue)
    ensures keep == ResolvedPass(p, old(hub.View()), inputs).keep
  {
    hide ChildPass, EarlyPass, UnplannedStatus, Put, SetsOk, Keep, PlanJob, Planning.PlanRefs, Rollout.Resolve,
         NewStatus;
    PutSame(hub.sets, p);
    var resolution := Rollout.ResolvePlacementRefs(p, inputs.placements, inputs.now);
    if resolution.failed && |resolution.clusters| == 0 {
      requeue := FinishEarly(hub, p, NewStatus(p).(placements := resolution.placements), "PlacementUnavailable",
                             inputs);
      return requeue, {};
    }
    keep := Keep(p, resolution);
    var plan := Planning.PlanRollout(hub.store, PlanJob(p, resolution, inputs), p, inputs);
    if plan.None? {
      var _ := hub.PatchStatus(p, UnplannedStatus(p, resolution, inputs.now), inputs.faults);
      return Retry, keep;
    }
    requeue := ReconcilePlanned(hub, p, resolution, plan.value, inputs);
  }

  /** One pass, as the controller runs it. */
  method Reconcile(hub: Client, name: SetName, inputs: Inputs) returns (requeue: Requeue, keep: Option<set<string>>)
    requires SetsOk(hub.sets)
    modifies hub
    ensures Reconciliation(hub.sets, hub.View(), requeue, keep)
            == ReconcileNamed(old(hub.sets), old(hub.View()), name, inputs)
  {
    hide ResolvedPass, DeletedPass, EarlyPass, Validation.OtherwiseValid, Validation.ObjectNamesUnique, NewStatus;
    if name !in hub.sets {
      return Stop, None;
    }
    var p := hub.sets[name];
    PutSame(hub.sets, p);
    if p.deleting {
      requeue := ReconcileDelete(hub, p, inputs);
      return requeue, Some({});
    }
    if FINALIZER !in p.finalizers {
      var failed := hub.PatchFinalizers(p.(finalizers := p.finalizers + {FINALIZER}), inputs.faults);
      return if failed then Retry else Stop, Some({});
    }
    var rejection := Validation.ValidateRuntimeSpec(p.spec);
    if rejection.Some? {
      requeue := FinishEarly(hub, p, NewStatus(p), "InvalidSpec", inputs);
      return requeue, Some({});
    }
    var kept;
    requeue, kept := ReconcileResolved(hub, p, inputs);
    return requeue, Some(kept);
  }
}
