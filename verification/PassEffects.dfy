/** What whole passes do to the children on the hub: footprint, order of cleanup, convergence, gating. */
module PassEffects {
  import opened Model
  import Names
  import opened Metadata
  import Rbac
  import opened Children
  import opened Hub
  import opened FanOut
  import opened Cleanup
  import opened Convergence
  import opened Observation
  import opened Rollout
  import opened Planning
  import StatusReport
  import opened Reconciler
  import opened PassProperties

  // ---------------------------------------------------------------- non-interference

  lemma SweepOnlyOwn(h: HubState, id: SetId, selected: set<string>, cleanup: set<string>,
                     works: map<string, set<string>>, accounts: set<string>, faults: set<Call>)
    requires StoreOk(h.store)
    ensures var after := DeleteStale(h, id, selected, cleanup, works, accounts, faults).hub;
            OnlyOwn(id, h, after) && StoreOk(after.store)
  {
    hide OwnedBySet, OnlyOwn, StoreOk, Owner, DeleteAll;
    OwnedKeys(h.store, id, WorkKind);
    OwnedKeys(h.store, id, AccountKind);
    DeleteAllOnlyOwn(h, id, StaleWorks(h.store, id, selected, cleanup, works), faults);
    DeleteAllOnlyOwn(h, id, StaleAccounts(h.store, id, selected, cleanup, accounts), faults);
    OnlyOwnReflexive(id, h);
  }

  lemma DeletePassOnlyOwn(h: HubState, id: SetId, faults: set<Call>)
    requires StoreOk(h.store)
    ensures OnlyOwn(id, h, DeletePass(h, id, faults).0) && StoreOk(DeletePass(h, id, faults).0.store)
  {
    hide OwnedBySet, OnlyOwn, StoreOk, Owner, DeleteAll;
    OwnedKeys(h.store, id, WorkKind);
    OwnedKeys(h.store, id, AccountKind);
    DeleteAllOnlyOwn(h, id, Live(h.store, Owned(h.store, id, WorkKind)), faults);
    DeleteAllOnlyOwn(h, id, Live(h.store, Owned(h.store, id, AccountKind)), faults);
    OnlyOwnReflexive(id, h);
  }

  /** A pass over one set neither writes nor changes a child that is not that set's own. */
  lemma PassOnlyOwn(p: ReplicaSet, h: HubState, inputs: Inputs)
    requires StoreOk(h.store)
    ensures var after := ReconcilePass(p, h, inputs).hub; OnlyOwn(p.id, h, after) && StoreOk(after.store)
  {
    hide OnlyOwn, StoreOk, DeletePass, ReachesChildren, JobOk, FanOutAll, DeleteStale, PlanOf, ResolutionOf, JobOf;
    if p.deleting {
      DeletePassOnlyOwn(h, p.id, inputs.faults);
    } else if ReachesChildren(p, h, inputs) {
      ReachingOnlyOwn(p, h, inputs);
    } else {
      PassWithoutChildren(p, h, inputs);
      OnlyOwnReflexive(p.id, h);
    }
  }

  lemma ReachingOnlyOwn(p: ReplicaSet, h: HubState, inputs: Inputs)
    requires StoreOk(h.store) && ReachesChildren(p, h, inputs)
    ensures var after := ReconcilePass(p, h, inputs).hub; OnlyOwn(p.id, h, after) && StoreOk(after.store)
  {
    hide OnlyOwn, StoreOk, JobOk, FanOutAll, DeleteStale, PlanRefs, Resolve, PlanJob, ApplyJob, ReconcilePass;
    PassOfChildren(p, h, inputs);
    JobFacts(p, h, inputs);
    var clusters, plan, x := ResolutionOf(p, inputs).clusters, PlanOf(p, h, inputs).value, JobOf(p, h, inputs);
    FanOutOnlyOwn(h, clusters, x);
    var (fanned, t) := FanOutAll(h, clusters, x);
    SweepOnlyOwn(fanned, p.id, Selected(clusters), plan.window, t.works, x.accounts, x.faults);
    OnlyOwnTransitive(p.id, h, fanned,
                      DeleteStale(fanned, p.id, Selected(clusters), plan.window, t.works, x.accounts, x.faults).hub);
  }

  // ---------------------------------------------------------------- footprint and order

  /** The children a pass wants in a cluster. */
  ghost predicate Wanted(p: ReplicaSet, h: HubState, inputs: Inputs, k: Key)
    requires PlanOf(p, h, inputs).Some?
  {
    Has(ChildrenOf(JobOf(p, h, inputs), k.cluster), k)
  }

  /** What a pass may touch: it never ensures and deletes the same child, leaves selected clusters outside its window
      alone, ensures wanted children only, deletes in unselected clusters or unwanted children in its window only,
      and deletes nothing after a failure. */
  lemma PassFootprint(p: ReplicaSet, h: HubState, inputs: Inputs)
    requires ReachesChildren(p, h, inputs) && h.writes == {}
    ensures var after := ReconcilePass(p, h, inputs).hub;
            var clusters, window := ResolutionOf(p, inputs).clusters, PlanOf(p, h, inputs).value.window;
            && Deleted(h, after) !! Ensured(h, after)
            && (forall w | w in after.writes && w.key.cluster in clusters :: w.key.cluster in window)
            && (forall k | k in Ensured(h, after) ::
                k.cluster in clusters && k.cluster in window && Wanted(p, h, inputs, k))
            && (forall k | k in Deleted(h, after) ::
                k.cluster !in clusters || (k.cluster in window && !Wanted(p, h, inputs, k)))
            && (ChildrenReconciled(p, h, inputs).result.failures > 0 ==> Deleted(h, after) == {})
  {
    hide JobOk, ReconcileChildren, PlanRefs, Resolve, PlanJob, ApplyJob, ReconcilePass, Deleted, Ensured, ChildrenOf;
    PassOfChildren(p, h, inputs);
    JobFacts(p, h, inputs);
    CleanupFootprint(h, ResolutionOf(p, inputs).clusters, PlanOf(p, h, inputs).value.window, JobOf(p, h, inputs));
  }

  /** A set's child is untouched by the fan-out in a cluster that is not selected, and deletes are never its doing. */
  lemma ElsewhereUntouched(h: HubState, clusters: seq<string>, x: Job, k: Key)
    requires NoRepeats(clusters) && JobOk(x) && k.cluster !in clusters
    ensures Get(FanOutAll(h, clusters, x).0.store, k) == Get(h.store, k)
    ensures Delete(k) in FanOutAll(h, clusters, x).0.writes <==> Delete(k) in h.writes
  {
    hide JobOk, FanOutAll, ChildrenOf;
    UnwantedUntouched(h, clusters, x, k);
    FanOutWrites(h, clusters, x);
  }

  /** The fan-out neither makes a work stale nor rids the hub of a stale one. */
  lemma StaleBefore(h: HubState, clusters: seq<string>, cleanup: set<string>, x: Job)
    requires NoRepeats(clusters) && JobOk(x) && cleanup <= x.window && FanOutAll(h, clusters, x).1.failures == 0
    ensures var (fanned, t) := FanOutAll(h, clusters, x);
            StaleWorks(fanned.store, x.id, Selected(clusters), cleanup, t.works) == {}
            <==> NoStaleWorks(h.store, clusters, cleanup, x)
  {
    hide JobOk, Owner, OwnedBySet, FanOutAll, ChildrenOf, Has;
    var (fanned, t) := FanOutAll(h, clusters, x);
    var stale := StaleWorks(fanned.store, x.id, Selected(clusters), cleanup, t.works);
    FanOutLists(h, clusters, cleanup, x);
    OwnedKeys(fanned.store, x.id, WorkKind);
    forall k: Key | k.kind.WorkKind? && !(k.cluster in clusters && Has(ChildrenOf(x, k.cluster), k))
      ensures Get(fanned.store, k) == Get(h.store, k)
    {
      UnwantedUntouched(h, clusters, x, k);
    }
    if NoStaleWorks(h.store, clusters, cleanup, x) {
      forall k ensures k !in stale {
        assert k in stale ==> Get(fanned.store, k) == Get(h.store, k);
      }
    }
    if stale == {} {
      forall k | k in h.store && k.kind.WorkKind? && Owner(h.store[k].labels) == Some(x.id)
        ensures k.cluster in clusters && (k.cluster in cleanup ==> Has(ChildrenOf(x, k.cluster), k))
      {
        assert k !in stale;
        if !(k.cluster in clusters && Has(ChildrenOf(x, k.cluster), k)) {
          assert Get(fanned.store, k) == Some(h.store[k]);
        }
      }
    }
  }

  ghost predicate OwnChild(store: Store, id: SetId, k: Key) {
    k in store && Owner(store[k].labels) == Some(id)
  }

  lemma ElsewhereGoes(h: HubState, clusters: seq<string>, cleanup: set<string>, x: Job, k: Key)
    requires NoRepeats(clusters) && JobOk(x) && cleanup <= x.window && k.cluster !in clusters
    ensures var r := ReconcileChildren(h, clusters, cleanup, x);
            Delete(k) in r.hub.writes
            <==> Delete(k) in h.writes
                 || (OwnChild(h.store, x.id, k) && ListWorks !in x.faults && r.result.failures == 0
                     && (k.kind.AccountKind?
                         ==> ListAccounts !in x.faults && NoStaleWorks(h.store, clusters, cleanup, x)))
  {
    hide JobOk, Owner, OwnedBySet, FanOutAll, ChildrenOf, DeleteFails, NoStaleWorks;
    var (fanned, t) := FanOutAll(h, clusters, x);
    ElsewhereUntouched(h, clusters, x, k);
    OwnedKeys(fanned.store, x.id, WorkKind);
    OwnedKeys(fanned.store, x.id, AccountKind);
    assert Get(fanned.store, k) == Get(h.store, k);
    if t.failures == 0 {
      StaleBefore(h, clusters, cleanup, x);
      assert OwnChild(h.store, x.id, k) && k.kind.WorkKind?
             <==> k in StaleWorks(fanned.store, x.id, Selected(clusters), cleanup, t.works);
      assert OwnChild(h.store, x.id, k) && k.kind.AccountKind?
             <==> k in StaleAccounts(fanned.store, x.id, Selected(clusters), cleanup, x.accounts);
    }
  }

  /** No readable placement selects the cluster. */
  ghost predicate SelectedByNone(placements: Placements, refs: seq<PlacementRef>, c: string) {
    forall ref | ref in refs && placements(ref.name).Some? :: c !in GroupClusters(placements(ref.name).value)
  }

  /** A placement that cannot be read selects nothing, and nothing protects what it selected before. In a cluster that
      no readable placement selects the pass deletes exactly the set's own works, unless their listing or some cluster
      fails; and exactly its own accounts too, as soon as no stale work is left. */
  lemma UnselectedGo(p: ReplicaSet, h: HubState, inputs: Inputs, k: Key)
    requires ReachesChildren(p, h, inputs) && SelectedByNone(inputs.placements, p.spec.placementRefs, k.cluster)
    ensures var clusters, window := ResolutionOf(p, inputs).clusters, PlanOf(p, h, inputs).value.window;
            Delete(k) in ReconcilePass(p, h, inputs).hub.writes
            <==> Delete(k) in h.writes
                 || (OwnChild(h.store, p.id, k) && ListWorks !in inputs.faults
                     && ChildrenReconciled(p, h, inputs).result.failures == 0
                     && (k.kind.AccountKind? ==>
                           && ListAccounts !in inputs.faults
                           && NoStaleWorks(h.store, clusters, window, JobOf(p, h, inputs))))
  {
    hide JobOk, PlanRefs, PlanJob, ApplyJob, ReconcilePass, Owner, ReconcileChildren, ValidSpec, NoStaleWorks;
    PassOfChildren(p, h, inputs);
    JobFacts(p, h, inputs);
    NotInUnion(inputs.placements, p.spec.placementRefs, k.cluster);
    ElsewhereGoes(h, ResolutionOf(p, inputs).clusters, PlanOf(p, h, inputs).value.window, JobOf(p, h, inputs), k);
  }

  /** Permissions go before credentials: when a pass over a live set deletes an account, no stale work of the set is
      left on the hub, and none at all in an unselected cluster of the account. */
  lemma PassDeletesWorksFirst(p: ReplicaSet, h: HubState, inputs: Inputs, account: Key)
    requires ReachesChildren(p, h, inputs) && h.writes == {}
    requires account.kind.AccountKind? && Delete(account) in ReconcilePass(p, h, inputs).hub.writes
    ensures NoStaleWorks(ReconcilePass(p, h, inputs).hub.store, ResolutionOf(p, inputs).clusters,
                         PlanOf(p, h, inputs).value.window, JobOf(p, h, inputs))
    ensures account.cluster !in ResolutionOf(p, inputs).clusters ==> NoWorksIn(h.store, p.id, account.cluster)
  {
    hide JobOk, ReconcileChildren, PlanRefs, Resolve, PlanJob, ApplyJob, ReconcilePass, ChildrenOf, Owner;
    PassOfChildren(p, h, inputs);
    JobFacts(p, h, inputs);
    StaleAccountsAfterWorks(h, ResolutionOf(p, inputs).clusters, PlanOf(p, h, inputs).value.window,
                            JobOf(p, h, inputs), account);
  }

  // ---------------------------------------------------------------- gating

  /** Had the pass also applied every cluster it skips as already succeeded, it would have left the very same hub:
      nothing is lost by skipping, provided selectors resolve as they did in planning. */
  lemma SkippingLosesNothing(p: ReplicaSet, h: HubState, inputs: Inputs)
    requires SdkContract(inputs.sdk) && ReachesChildren(p, h, inputs) && inputs.planResolve == inputs.resolve
    ensures var clusters, x := ResolutionOf(p, inputs).clusters, JobOf(p, h, inputs);
            FanOutAll(h, clusters, Widened(x, clusters)).0 == FanOutAll(h, clusters, x).0
  {
    hide JobOk, PlanRefs, Resolve, PlanJob, ApplyJob, SdkContract, ChildrenOf, StepCluster, ObserveCluster, Widened,
         FanOutAll;
    var resolution, plan, x := ResolutionOf(p, inputs), PlanOf(p, h, inputs).value, JobOf(p, h, inputs);
    var planned := PlanJob(p, resolution, inputs);
    JobFacts(p, h, inputs);
    PlanFacts(p, h, inputs);
    forall c | c in resolution.clusters && c !in x.window && Started(x, c)
      ensures SameChildren(planned, x, c) && Good(ObserveCluster(h.store, planned, c))
    {
      SucceededWasObserved(plan, h.store, planned, Selected(resolution.clusters), c);
      PlannedAsApplied(p, resolution, plan, inputs, c);
    }
    GatingRefinesFull(h, resolution.clusters, x, planned);
  }

  lemma PlannedAsApplied(p: ReplicaSet, resolution: Resolution, plan: Plan, inputs: Inputs, c: string)
    requires inputs.planResolve == inputs.resolve
    ensures SameChildren(PlanJob(p, resolution, inputs), ApplyJob(p, resolution, plan, inputs), c)
  {
    hide Rbac.DesiredSlices, ChildrenOf, DesiredChildren, DesiredWorkNames, DesiredAccountNames, SelectorRbacEnabled;
    JobForChildren(p.id, p.spec, resolution.refs, plan.window, plan.statuses, inputs.resolve, inputs.faults, c);
    JobForChildren(p.id, p.spec, resolution.refs, {}, map[], inputs.planResolve, inputs.planFaults, c);
  }

  // ---------------------------------------------------------------- convergence

  /** The children that `p` wants are all there is of its own in `store`, apart from accounts on their way out. */
  ghost predicate SetConverged(store: Store, p: ReplicaSet, placements: Placements, resolve: Resolver) {
    Converged(store, Resolve(p, placements, 0).clusters, WantedJob(p, placements, resolve))
  }

  /** The job of a set without a window: only its children matter. */
  function WantedJob(p: ReplicaSet, placements: Placements, resolve: Resolver): Job {
    JobFor(p.id, p.spec, Resolve(p, placements, 0).refs, {}, map[], resolve, {})
  }

  lemma SameConverged(store: Store, clusters: seq<string>, a: Job, b: Job)
    requires a.id == b.id && forall c :: ChildrenOf(a, c) == ChildrenOf(b, c)
    ensures Converged(store, clusters, a) <==> Converged(store, clusters, b)
  {
    hide ChildrenOf, Owner, InPlace;
  }

  lemma WantedByPass(p: ReplicaSet, h: HubState, inputs: Inputs)
    requires PlanOf(p, h, inputs).Some?
    ensures var x, wanted := JobOf(p, h, inputs), WantedJob(p, inputs.placements, inputs.resolve);
            x.id == wanted.id && (forall c :: ChildrenOf(x, c) == ChildrenOf(wanted, c))
            && ResolutionOf(p, inputs).clusters == Resolve(p, inputs.placements, 0).clusters
  {
    hide PlanRefs, PlanJob, ChildrenOf, DesiredChildren, Rbac.DesiredSlices;
    var plan, refs := PlanOf(p, h, inputs).value, Resolve(p, inputs.placements, 0).refs;
    assert ResolutionOf(p, inputs).refs == refs;
    JobFields(p, ResolutionOf(p, inputs), plan, inputs);
    forall c
      ensures ChildrenOf(JobOf(p, h, inputs), c) == ChildrenOf(WantedJob(p, inputs.placements, inputs.resolve), c)
    {
      JobForChildren(p.id, p.spec, refs, plan.window, plan.statuses, inputs.resolve, inputs.faults, c);
      JobForChildren(p.id, p.spec, refs, {}, map[], inputs.resolve, {}, c);
    }
  }

  /** A clean pass over clusters that are all in the window or observed Succeeded leaves every wanted child in place,
      and nothing else of the set's but accounts on their way out and what its window spares in succeeded clusters. */
  lemma CoveredPassConverges(p: ReplicaSet, h: HubState, inputs: Inputs)
    requires SdkContract(inputs.sdk) && inputs.planResolve == inputs.resolve
    requires ReachesChildren(p, h, inputs) && CleanPass(ChildrenReconciled(p, h, inputs))
    requires forall c | c in ResolutionOf(p, inputs).clusters ::
               NamesApart(p.id, p.spec, c, inputs.resolve)
               && (c in PlanOf(p, h, inputs).value.window || Started(JobOf(p, h, inputs), c))
    ensures ConvergedWithin(ReconcilePass(p, h, inputs).hub.store, ResolutionOf(p, inputs).clusters,
                            PlanOf(p, h, inputs).value.window, JobOf(p, h, inputs))
  {
    hide JobOk, ReconcileChildren, PlanRefs, Resolve, PlanJob, ApplyJob, ReconcilePass, ChildrenOf, NamesApart,
         SdkContract, ConvergedWithin, ObserveCluster, KeysAgree, AllInPlace;
    var resolution, plan, x := ResolutionOf(p, inputs), PlanOf(p, h, inputs).value, JobOf(p, h, inputs);
    PassOfChildren(p, h, inputs);
    JobFacts(p, h, inputs);
    PlanFacts(p, h, inputs);
    forall c | c in resolution.clusters
      ensures if c in x.window then KeysAgree(ChildrenOf(x, c)) else AllInPlace(h.store, x, c)
    {
      if c in x.window {
        AgreesInJob(p, h, inputs, c);
      } else {
        SucceededWasObserved(plan, h.store, PlanJob(p, resolution, inputs), Selected(resolution.clusters), c);
        PlannedAsApplied(p, resolution, plan, inputs, c);
        GoodInPlace(h.store, PlanJob(p, resolution, inputs), x, c);
      }
    }
    PassConvergesWithin(h, resolution.clusters, plan.window, x);
  }

  lemma GoodInPlace(store: Store, planned: Job, x: Job, c: string)
    requires SameChildren(planned, x, c) && Good(ObserveCluster(store, planned, c))
    ensures AllInPlace(store, x, c)
  {
    hide ObserveCluster, ChildrenOf;
    ObservationIsConjunction(store, planned, c);
  }

  /** A clean pass whose window covers all selected clusters leaves exactly the wanted children. */
  lemma CleanPassConverges(p: ReplicaSet, h: HubState, inputs: Inputs)
    requires ReachesChildren(p, h, inputs) && CleanPass(ChildrenReconciled(p, h, inputs))
    requires forall c | c in ResolutionOf(p, inputs).clusters ::
               c in PlanOf(p, h, inputs).value.window && NamesApart(p.id, p.spec, c, inputs.resolve)
    ensures SetConverged(ReconcilePass(p, h, inputs).hub.store, p, inputs.placements, inputs.resolve)
  {
    hide JobOk, ReconcileChildren, PlanRefs, Resolve, PlanJob, ApplyJob, ReconcilePass, ChildrenOf, NamesApart,
         Converged, JobFor;
    var clusters, x := ResolutionOf(p, inputs).clusters, JobOf(p, h, inputs);
    PassOfChildren(p, h, inputs);
    JobFacts(p, h, inputs);
    forall c | c in clusters { AgreesInJob(p, h, inputs, c); }
    PassConverges(h, clusters, PlanOf(p, h, inputs).value.window, x);
    WantedByPass(p, h, inputs);
    SameConverged(ReconcilePass(p, h, inputs).hub.store, clusters, x, WantedJob(p, inputs.placements, inputs.resolve));
  }

  /** The keys of all children that a set wants. */
  ghost function WantedBy(p: ReplicaSet, placements: Placements, resolve: Resolver): set<Key> {
    WantedKeys(Resolve(p, placements, 0).clusters, WantedJob(p, placements, resolve))
  }

  lemma SameWantedKeys(clusters: seq<string>, a: Job, b: Job)
    requires forall c :: ChildrenOf(a, c) == ChildrenOf(b, c)
    ensures WantedKeys(clusters, a) == WantedKeys(clusters, b)
  {
    hide ChildrenOf;
  }

  /** After such a pass the set's children that nobody has deleted are exactly the wanted ones, if and only if no wanted
      child had been deleted before: the controller does not look at deletion marks. */
  lemma CleanPassLiveExactly(p: ReplicaSet, h: HubState, inputs: Inputs)
    requires ReachesChildren(p, h, inputs) && CleanPass(ChildrenReconciled(p, h, inputs))
    requires forall c | c in ResolutionOf(p, inputs).clusters ::
               c in PlanOf(p, h, inputs).value.window && NamesApart(p.id, p.spec, c, inputs.resolve)
    ensures LiveOf(ReconcilePass(p, h, inputs).hub.store, p.id) == WantedBy(p, inputs.placements, inputs.resolve)
            <==> NoneDeleted(h.store, WantedBy(p, inputs.placements, inputs.resolve))
  {
    hide JobOk, ReconcileChildren, PlanRefs, Resolve, PlanJob, ApplyJob, ReconcilePass, ChildrenOf, NamesApart, JobFor,
         WantedKeys, LiveOf, KeysAgree;
    var clusters, x := ResolutionOf(p, inputs).clusters, JobOf(p, h, inputs);
    PassOfChildren(p, h, inputs);
    JobFacts(p, h, inputs);
    forall c | c in clusters { AgreesInJob(p, h, inputs, c); }
    LiveAreWantedExactly(h, clusters, PlanOf(p, h, inputs).value.window, x);
    WantedByPass(p, h, inputs);
    SameWantedKeys(clusters, x, WantedJob(p, inputs.placements, inputs.resolve));
  }

  /** Once converged, a pass changes no child, whatever its window, its answers from the SDK and the calls that fail. */
  lemma ConvergedPassIsQuiet(p: ReplicaSet, h: HubState, inputs: Inputs)
    requires !p.deleting && StoreOk(h.store) && SetConverged(h.store, p, inputs.placements, inputs.resolve)
    ensures ReconcilePass(p, h, inputs).hub.store == h.store
  {
    hide JobOk, ReconcileChildren, PlanRefs, Resolve, PlanJob, ApplyJob, ReconcilePass, ChildrenOf, Converged, JobFor,
         ValidSpec;
    if ReachesChildren(p, h, inputs) {
      var clusters, x := ResolutionOf(p, inputs).clusters, JobOf(p, h, inputs);
      PassOfChildren(p, h, inputs);
      JobFacts(p, h, inputs);
      WantedByPass(p, h, inputs);
      SameConverged(h.store, clusters, x, WantedJob(p, inputs.placements, inputs.resolve));
      ConvergedIsStable(h, clusters, PlanOf(p, h, inputs).value.window, x);
    } else {
      PassWithoutChildren(p, h, inputs);
    }
  }

  /** Nothing disturbs a pass: no call fails, every grant renders, no foreign object is in the way, and the window
      covers the set. */
  ghost predicate Untroubled(p: ReplicaSet, h: HubState, inputs: Inputs)
    requires PlanOf(p, h, inputs).Some?
  {
    var clusters, x := ResolutionOf(p, inputs).clusters, JobOf(p, h, inputs);
    && inputs.faults == {} && NoForeign(h.store, clusters, x)
    && forall c | c in clusters :: c in x.window && !x.failed(c) && NamesApart(p.id, p.spec, c, inputs.resolve)
  }

  ghost predicate UnwantedLeft(store: Store, p: ReplicaSet, inputs: Inputs, x: Job) {
    exists k :: UnwantedWork(store, ResolutionOf(p, inputs).clusters, x, k)
  }

  ghost predicate UnwantedStopped(store: Store, p: ReplicaSet, inputs: Inputs, x: Job) {
    forall k | UnwantedWork(store, ResolutionOf(p, inputs).clusters, x, k) :: store[k].terminating
  }

  /** A pass that nothing disturbs converges at once, unless it finds works that are no longer wanted; those it stops,
      so that one more such pass converges once their agents let them go. Settling has that for whole runs. */
  lemma UntroubledPassConverges(p: ReplicaSet, h: HubState, inputs: Inputs)
    requires ReachesChildren(p, h, inputs) && Untroubled(p, h, inputs)
    ensures var store, x := ReconcilePass(p, h, inputs).hub.store, JobOf(p, h, inputs);
            && (!UnwantedLeft(h.store, p, inputs, x) ==> SetConverged(store, p, inputs.placements, inputs.resolve))
            && UnwantedStopped(store, p, inputs, x)
            && NoForeign(store, ResolutionOf(p, inputs).clusters, x)
            && ChildrenReconciled(p, h, inputs).result.conflicts == 0 && !ChildrenReconciled(p, h, inputs).result.failed
  {
    hide JobOk, ReconcileChildren, PlanRefs, Resolve, PlanJob, ApplyJob, ReconcilePass, ChildrenOf, NamesApart,
         Converged, JobFor, UnwantedWork, NoForeign;
    var clusters, x := ResolutionOf(p, inputs).clusters, JobOf(p, h, inputs);
    PassOfChildren(p, h, inputs);
    JobFacts(p, h, inputs);
    forall c | c in clusters { AgreesInJob(p, h, inputs, c); }
    UntroubledReconcile(h, clusters, PlanOf(p, h, inputs).value.window, x);
    WantedByPass(p, h, inputs);
    SameConverged(ReconcilePass(p, h, inputs).hub.store, clusters, x, WantedJob(p, inputs.placements, inputs.resolve));
  }

  /** Further passes over the same set, one after the other. */
  function RunPasses(p: ReplicaSet, h: HubState, runs: seq<Inputs>): (ReplicaSet, HubState) {
    if |runs| == 0 then (p, h)
    else
      var (q, g) := RunPasses(p, h, runs[..|runs| - 1]);
      var pass := ReconcilePass(q, g, runs[|runs| - 1]);
      (pass.parent, pass.hub)
  }

  lemma PassKeepsSpec(p: ReplicaSet, h: HubState, inputs: Inputs)
    ensures var q := ReconcilePass(p, h, inputs).parent;
            q.id == p.id && q.spec == p.spec && q.deleting == p.deleting && q.generation == p.generation
  {
    hide DeletePass, ReconcileChildren, PlanRefs, Resolve, PlanJob, ApplyJob, StatusReport.FullStatus, ValidSpec,
         StatusReport.EarlyReturn, StatusReport.UnplannedStatus, WaitStatus;
  }

  /** From a converged hub no number of passes changes a child, as long as placements and remote namespaces stay as
      they are. */
  lemma {:induction false} ConvergedForGood(p: ReplicaSet, h: HubState, placements: Placements, resolve: Resolver,
                                            runs: seq<Inputs>)
    requires !p.deleting && StoreOk(h.store) && SetConverged(h.store, p, placements, resolve)
    requires forall r | r in runs :: r.placements == placements && r.resolve == resolve
    ensures var (q, g) := RunPasses(p, h, runs); g.store == h.store && q.id == p.id && q.spec == p.spec && !q.deleting
  {
    hide ReconcilePass, Converged, StoreOk, Resolve, JobFor;
    var n := |runs| - 1;
    if n >= 0 {
      ConvergedForGood(p, h, placements, resolve, runs[..n]);
      var (q, g) := RunPasses(p, h, runs[..n]);
      SameWanted(p, q, placements, resolve);
      assert runs[n] in runs;
      ConvergedPassIsQuiet(q, g, runs[n]);
      PassKeepsSpec(q, g, runs[n]);
    }
  }

  lemma SameWanted(p: ReplicaSet, q: ReplicaSet, placements: Placements, resolve: Resolver)
    requires p.id == q.id && p.spec == q.spec
    ensures WantedJob(p, placements, resolve) == WantedJob(q, placements, resolve)
    ensures Resolve(p, placements, 0).clusters == Resolve(q, placements, 0).clusters
  {
    hide JobFor;
    assert Resolve(p, placements, 0).refs == Resolve(q, placements, 0).refs;
  }

  // ---------------------------------------------------------------- when the names do not stay apart

  /** Nothing stops a template from taking the access account's name. Then both children can be in place exactly if
      they are the same, which they are exactly if the template is plain. */
  lemma SharedNameSettles(id: SetId, spec: Spec, cluster: string, ref: string)
    requires spec.template.name == Names.AccessAccountName(id.name)
    ensures (exists store ::
               InPlace(store, id, BuildAccessAccount(id, cluster, ref))
               && InPlace(store, id, BuildAccount(id, spec, cluster, ref)))
            <==> BuildAccessAccount(id, cluster, ref) == BuildAccount(id, spec, cluster, ref)
    ensures BuildAccessAccount(id, cluster, ref) == BuildAccount(id, spec, cluster, ref)
            <==> PlainTemplate(spec.template)
  {
    hide ChildLabels, Owner, Names.AccessAccountName, PlainTemplate;
    var d := BuildAccessAccount(id, cluster, ref);
    SameAccountExactly(id, spec, cluster, ref);
    ChildLabelsOwned(id, ref, map[]);
    assert InPlace(map[d.key := Created(d)], id, d);
  }

  lemma BothAccountsDesired(id: SetId, spec: Spec, cluster: string, ref: string, slices: seq<Rbac.Slice>)
    requires SelectorRbacEnabled(spec)
    ensures BuildAccessAccount(id, cluster, ref) in DesiredChildren(id, spec, cluster, ref, slices)
    ensures BuildAccount(id, spec, cluster, ref) in DesiredChildren(id, spec, cluster, ref, slices)
  {
    hide BuildAccount, BuildAccessAccount;
    var ds := DesiredChildren(id, spec, cluster, ref, slices);
    assert ds[0] == BuildAccessAccount(id, cluster, ref) && ds[2] == BuildAccount(id, spec, cluster, ref);
  }

  lemma SameId(p: ReplicaSet, placements: Placements, resolve: Resolver)
    ensures WantedJob(p, placements, resolve).id == p.id
  {
  }

  /** A hub is converged only for a set whose template fits. */
  lemma ConvergedTemplateFits(p: ReplicaSet, placements: Placements, resolve: Resolver, store: Store, c: string)
    requires c in Resolve(p, placements, 0).clusters && SetConverged(store, p, placements, resolve)
    ensures TemplateFits(p.id, p.spec)
  {
    hide BuildAccount, BuildAccessAccount, Resolve, Rbac.DesiredSlices, DesiredChildren, ChildrenOf, JobFor, InPlace,
         Primary, Has, Owner, PlainTemplate, SelectorRbacEnabled;
    if SelectorRbacEnabled(p.spec) && p.spec.template.name == Names.AccessAccountName(p.id.name) {
      var refs := Resolve(p, placements, 0).refs;
      var x, ref := WantedJob(p, placements, resolve), Primary(refs, c);
      JobForChildren(p.id, p.spec, refs, {}, map[], resolve, {}, c);
      BothAccountsDesired(p.id, p.spec, c, ref, Rbac.DesiredSlices(p.id, p.spec, c, resolve).slices);
      SameId(p, placements, resolve);
      assert BuildAccessAccount(p.id, c, ref) in ChildrenOf(x, c);
      assert BuildAccount(p.id, p.spec, c, ref) in ChildrenOf(x, c);
      assert InPlace(store, p.id, BuildAccessAccount(p.id, c, ref));
      assert InPlace(store, p.id, BuildAccount(p.id, p.spec, c, ref));
      SharedNameSettles(p.id, p.spec, c, ref);
    }
  }

  /** A clean pass whose window covers all selected clusters converges exactly if the template fits: it leaves the
      access account's name alone, or asks for that very account. */
  lemma CleanPassConvergesExactly(p: ReplicaSet, h: HubState, inputs: Inputs)
    requires ReachesChildren(p, h, inputs) && CleanPass(ChildrenReconciled(p, h, inputs))
    requires forall c | c in ResolutionOf(p, inputs).clusters ::
               c in PlanOf(p, h, inputs).value.window && DigestsApart(p.id, p.spec, c, inputs.resolve)
    ensures SetConverged(ReconcilePass(p, h, inputs).hub.store, p, inputs.placements, inputs.resolve)
            <==> ResolutionOf(p, inputs).clusters == [] || TemplateFits(p.id, p.spec)
  {
    hide ReconcileChildren, PlanRefs, PlanJob, ApplyJob, ReconcilePass, DigestsApart, TemplateFits, SetConverged,
         ValidSpec;
    var clusters := ResolutionOf(p, inputs).clusters;
    if clusters == [] || TemplateFits(p.id, p.spec) {
      CleanPassConverges(p, h, inputs);
    } else if SetConverged(ReconcilePass(p, h, inputs).hub.store, p, inputs.placements, inputs.resolve) {
      SameClusters(p, inputs);
      ConvergedTemplateFits(p, inputs.placements, inputs.resolve, ReconcilePass(p, h, inputs).hub.store, clusters[0]);
    }
  }

  lemma SameClusters(p: ReplicaSet, inputs: Inputs)
    ensures ResolutionOf(p, inputs).clusters == Resolve(p, inputs.placements, 0).clusters
  {
  }

  /** Ensuring the front children patches the account that the access child has just claimed. */
  lemma SharedNamePatches(h: HubState, id: SetId, spec: Spec, cluster: string, ref: string)
    requires !TemplateFits(id, spec)
    requires var k := BuildAccount(id, spec, cluster, ref).key; k in h.store ==> Owner(h.store[k].labels) == Some(id)
    ensures var ds := AccessChildren(id, spec, cluster, ref) + [BuildAccount(id, spec, cluster, ref)];
            Patch(BuildAccount(id, spec, cluster, ref).key) in EnsureAll(h, id, ds, {}).0.writes
  {
    hide SelectorRbacEnabled, ChildLabels, Owner, OwnedBySet, Names.AccessAccountName, AccessManifests, WorkLabels,
         WorkAnnotations, Stored, PlainTemplate;
    var access, work := BuildAccessAccount(id, cluster, ref), BuildAccessWork(id, spec, cluster, ref);
    var account := BuildAccount(id, spec, cluster, ref);
    var ds := AccessChildren(id, spec, cluster, ref) + [account];
    SameAccountExactly(id, spec, cluster, ref);
    ChildLabelsOwned(id, ref, map[]);
    if account.key in h.store { OwnedByOwner(id, h.store[account.key].labels); }
    var first, o := Ensure(h, id, access, {}).0, Ensure(h, id, access, {}).1;
    EnsureDone(h, id, access, {});
    var second := Ensure(first, id, work, {}).0;
    EnsureLocal(first, first, id, work, {});
    assert Get(second.store, account.key) == Get(first.store, account.key);
    OwnedByOwner(id, second.store[account.key].labels);
    EnsureThree(h, id, ds, first, second);
  }

  lemma StepPatches(h: HubState, id: SetId, spec: Spec, cluster: string, ref: string, x: Job)
    requires !TemplateFits(id, spec) && cluster in x.window && x.faults == {} && x.id == id
    requires x.access(cluster) == AccessChildren(id, spec, cluster, ref)
    requires x.account(cluster) == BuildAccount(id, spec, cluster, ref)
    requires var k := BuildAccount(id, spec, cluster, ref).key; k in h.store ==> Owner(h.store[k].labels) == Some(id)
    ensures Patch(BuildAccount(id, spec, cluster, ref).key) in StepCluster(h, cluster, x).0.writes
  {
    hide TemplateFits, BuildAccount, AccessChildren, EnsureAll, AllReady, Contribution, Owner, CountConflicts,
         CountFailures;
    SharedNamePatches(h, id, spec, cluster, ref);
    var front, works := x.access(cluster) + [x.account(cluster)], Works(x.works(cluster));
    EnsureAllConcat(h, id, front, works, {});
    EnsureAllFrame(EnsureAll(h, id, front, {}).0, id, works, {});
    assert ChildrenOf(x, cluster) == front + works;
  }

  lemma FrontOfJob(p: ReplicaSet, resolution: Resolution, plan: Plan, inputs: Inputs, c: string)
    ensures var x, ref := ApplyJob(p, resolution, plan, inputs), Primary(resolution.refs, c);
            x.access(c) == AccessChildren(p.id, p.spec, c, ref) && x.account(c) == BuildAccount(p.id, p.spec, c, ref)
  {
    hide SelectorRbacEnabled, DesiredAccountNames, DesiredWorkNames, Rbac.DesiredSlices, AccessChildren, BuildAccount,
         SliceWorks;
  }

  /** Every pass without failing calls over a set whose template does not fit patches the account again, in every
      cluster of its window where the account is the set's own or missing. */
  lemma SharedNamePatchesForever(p: ReplicaSet, h: HubState, inputs: Inputs, c: string)
    requires ReachesChildren(p, h, inputs) && !TemplateFits(p.id, p.spec) && inputs.faults == {}
    requires c in ResolutionOf(p, inputs).clusters && c in PlanOf(p, h, inputs).value.window
    requires var k := Key(AccountKind, c, p.spec.template.name); k in h.store ==> Owner(h.store[k].labels) == Some(p.id)
    ensures Patch(Key(AccountKind, c, p.spec.template.name)) in ReconcilePass(p, h, inputs).hub.writes
  {
    hide JobOk, PlanRefs, Resolve, PlanJob, ApplyJob, ReconcilePass, TemplateFits, FanOutAll, StepCluster, Owner,
         BuildAccount, AccessChildren, Primary, ValidSpec;
    var resolution, plan, x := ResolutionOf(p, inputs), PlanOf(p, h, inputs).value, JobOf(p, h, inputs);
    var k, ref := Key(AccountKind, c, p.spec.template.name), Primary(resolution.refs, c);
    PassOfChildren(p, h, inputs);
    JobFacts(p, h, inputs);
    FrontOfJob(p, resolution, plan, inputs, c);
    AccountKeyOf(p.id, p.spec, c, ref);
    forall g: HubState | Agree(g.store, h.store, c) ensures Patch(k) in StepCluster(g, c, x).0.writes {
      assert Get(g.store, k) == Get(h.store, k);
      StepPatches(g, p.id, p.spec, c, ref, x);
    }
    FanOutWritesAll(h, resolution.clusters, x, c, Patch(k));
  }

  lemma EnsureThree(h: HubState, id: SetId, ds: seq<Desired>, first: HubState, second: HubState)
    requires |ds| == 3 && first == Ensure(h, id, ds[0], {}).0 && second == Ensure(first, id, ds[1], {}).0
    ensures EnsureAll(h, id, ds, {}).0 == Ensure(second, id, ds[2], {}).0
  {
    hide Ensure;
    assert ds[..2][..1] == [ds[0]] && ds[..2][1] == ds[1] && [ds[0]][..0] == [];
    assert EnsureAll(h, id, [], {}).0 == h;
    assert EnsureAll(h, id, [ds[0]], {}).0 == first;
    assert EnsureAll(h, id, ds[..2], {}).0 == second;
  }
}
