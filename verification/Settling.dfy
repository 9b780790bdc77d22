/** A live set always gets to what it wants: only the agents of unwanted works can hold it up. */
module Settling {
  import opened Model
  import Metadata
  import opened Hub
  import opened FanOut
  import opened Cleanup
  import opened Convergence
  import opened Rollout
  import Planning
  import opened Reconciler
  import opened PassProperties
  import opened PassEffects
  import opened Protocol

  /** A work that the set owns but does not want, with its placements and remote namespaces as given. */
  ghost predicate Unwanted(store: Store, p: ReplicaSet, placements: Placements, resolve: Resolver, k: Key) {
    UnwantedWork(store, Resolve(p, placements, 0).clusters, WantedJob(p, placements, resolve), k)
  }

  ghost predicate NoneUnwanted(store: Store, p: ReplicaSet, placements: Placements, resolve: Resolver) {
    forall k :: !Unwanted(store, p, placements, resolve, k)
  }

  ghost predicate UnwantedStop(store: Store, p: ReplicaSet, placements: Placements, resolve: Resolver) {
    forall k | Unwanted(store, p, placements, resolve, k) :: store[k].terminating
  }

  // ---------------------------------------------------------------- no step makes a work unwanted

  lemma SweepShrinks(h: HubState, id: SetId, selected: set<string>, cleanup: set<string>,
                     works: map<string, set<string>>, accounts: set<string>, faults: set<Call>, k: Key)
    requires k in DeleteStale(h, id, selected, cleanup, works, accounts, faults).hub.store
    ensures k in h.store
            && DeleteStale(h, id, selected, cleanup, works, accounts, faults).hub.store[k].labels == h.store[k].labels
  {
    hide StaleWorks, StaleAccounts, DeleteFails;
  }

  lemma UnwantedSurvives(h: HubState, clusters: seq<string>, cleanup: set<string>, x: Job, k: Key)
    requires NoRepeats(clusters) && JobOk(x)
    requires UnwantedWork(ReconcileChildren(h, clusters, cleanup, x).hub.store, clusters, x, k)
    ensures UnwantedWork(h.store, clusters, x, k)
  {
    hide Metadata.Owner, FanOutAll, DeleteStale, ChildrenOf, Has, JobOk;
    var (fanned, t) := FanOutAll(h, clusters, x);
    UnwantedUntouched(h, clusters, x, k);
    if t.failures == 0 {
      SweepShrinks(fanned, x.id, Selected(clusters), cleanup, t.works, x.accounts, x.faults, k);
    }
    assert k in fanned.store && Get(fanned.store, k) == Get(h.store, k);
  }

  lemma SameUnwanted(store: Store, clusters: seq<string>, a: Job, b: Job, k: Key)
    requires a.id == b.id && forall c :: ChildrenOf(a, c) == ChildrenOf(b, c)
    ensures UnwantedWork(store, clusters, a, k) <==> UnwantedWork(store, clusters, b, k)
  {
    hide ChildrenOf, Metadata.Owner;
  }

  /** What no longer is wanted after a pass over a live set was not wanted before. */
  lemma PassAddsNoUnwanted(p: ReplicaSet, h: HubState, inputs: Inputs, k: Key)
    requires !p.deleting
    requires Unwanted(ReconcilePass(p, h, inputs).hub.store, p, inputs.placements, inputs.resolve, k)
    ensures Unwanted(h.store, p, inputs.placements, inputs.resolve, k)
  {
    hide JobOk, ReconcileChildren, Planning.PlanRefs, Resolve, PlanJob, ApplyJob, ReconcilePass, ChildrenOf,
         UnwantedWork, WantedJob, ValidSpec;
    if ReachesChildren(p, h, inputs) {
      var clusters, x := ResolutionOf(p, inputs).clusters, JobOf(p, h, inputs);
      var wanted := WantedJob(p, inputs.placements, inputs.resolve);
      PassOfChildren(p, h, inputs);
      JobFacts(p, h, inputs);
      WantedByPass(p, h, inputs);
      SameUnwanted(ReconcilePass(p, h, inputs).hub.store, clusters, x, wanted, k);
      UnwantedSurvives(h, clusters, PlanOf(p, h, inputs).value.window, x, k);
      SameUnwanted(h.store, clusters, x, wanted, k);
    } else {
      PassWithoutChildren(p, h, inputs);
    }
  }

  // ---------------------------------------------------------------- what may happen meanwhile

  /** Neither the set's spec nor what it selects changes, and nobody deletes the set. */
  ghost predicate Steady(e: Event, p: ReplicaSet, placements: Placements, resolve: Resolver) {
    match e
    case PassOver(n, inputs) => n == NameOf(p.id) ==> inputs.placements == placements && inputs.resolve == resolve
    case DeleteSet(n) => n != NameOf(p.id)
    case EditSet(q) => q.id == p.id ==> q.spec == p.spec
    case _ => true
  }

  /** The set as it was created, apart from status and finalizers. */
  ghost predicate Stays(w: World, p: ReplicaSet) {
    var n := NameOf(p.id);
    n in w.sets && w.sets[n].id == p.id && w.sets[n].spec == p.spec && !w.sets[n].deleting
  }

  lemma SteadyStays(w: World, e: Event, p: ReplicaSet, placements: Placements, resolve: Resolver)
    requires WorldOk(w) && Allowed(w, e) && Stays(w, p) && Steady(e, p, placements, resolve)
    ensures Stays(Next(w, e), p)
  {
    hide ReconcilePass, Metadata.Owner, OnlyOwn, StoreOk, NoOrphans;
    match e
    case PassOver(n, inputs) =>
      if n in w.sets { PassKeepsSpec(w.sets[n], HubState(w.store, {}), inputs); }
    case _ =>
  }

  lemma SteadyAddsNoUnwanted(w: World, e: Event, p: ReplicaSet, placements: Placements, resolve: Resolver, k: Key)
    requires WorldOk(w) && Allowed(w, e) && Stays(w, p) && Steady(e, p, placements, resolve)
    requires Unwanted(Next(w, e).store, p, placements, resolve, k)
    ensures Unwanted(w.store, p, placements, resolve, k)
  {
    hide ReconcilePass, Metadata.Owner, NoOrphans, OnlyOwn, StoreOk, Resolve, WantedJob, ChildrenOf, Has;
    SameId(p, placements, resolve);
    match e
    case PassOver(n, inputs) =>
      if n in w.sets {
        var q, h := w.sets[n], HubState(w.store, {});
        if n == NameOf(p.id) {
          SameWanted(p, q, placements, resolve);
          PassAddsNoUnwanted(q, h, inputs, k);
        } else {
          PassOnlyOwn(q, h, inputs);
          ForeignUntouched(q.id, h, ReconcilePass(q, h, inputs).hub, k);
        }
      }
    case _ =>
  }

  ghost predicate NoMoreUnwanted(before: Store, after: Store, p: ReplicaSet, placements: Placements,
                                 resolve: Resolver) {
    forall k | Unwanted(after, p, placements, resolve, k) :: Unwanted(before, p, placements, resolve, k)
  }

  lemma {:induction false} SteadyRun(w: World, events: seq<Event>, p: ReplicaSet, placements: Placements,
                                     resolve: Resolver)
    requires WorldOk(w) && AllowedRun(w, events) && Stays(w, p)
    requires forall e | e in events :: Steady(e, p, placements, resolve)
    ensures var after := WorldAfter(w, events);
            && WorldOk(after) && Stays(after, p)
            && NoMoreUnwanted(w.store, after.store, p, placements, resolve)
  {
    hide Allowed, Next, WorldOk, Stays, Unwanted, Steady;
    var n := |events| - 1;
    if n >= 0 {
      SteadyRun(w, events[..n], p, placements, resolve);
      assert events[n] in events;
      var before := WorldAfter(w, events[..n]);
      NextOk(before, events[n]);
      SteadyStays(before, events[n], p, placements, resolve);
      forall k | Unwanted(Next(before, events[n]).store, p, placements, resolve, k)
        ensures Unwanted(w.store, p, placements, resolve, k)
      {
        SteadyAddsNoUnwanted(before, events[n], p, placements, resolve, k);
      }
    }
  }

  // ---------------------------------------------------------------- two passes

  /** A pass over the set that gets to its children and that nothing disturbs. */
  ghost predicate Smooth(w: World, p: ReplicaSet, inputs: Inputs) {
    && Stays(w, p)
    && var current, h := w.sets[NameOf(p.id)], HubState(w.store, {});
       ReachesChildren(current, h, inputs) && Untroubled(current, h, inputs)
  }

  lemma SmoothStops(p: ReplicaSet, h: HubState, inputs: Inputs)
    requires ReachesChildren(p, h, inputs) && Untroubled(p, h, inputs)
    ensures var store := ReconcilePass(p, h, inputs).hub.store;
            && UnwantedStop(store, p, inputs.placements, inputs.resolve)
            && (NoneUnwanted(h.store, p, inputs.placements, inputs.resolve)
                ==> SetConverged(store, p, inputs.placements, inputs.resolve))
  {
    hide ReconcilePass, JobOf, PlanOf, Resolve, WantedJob, SetConverged, Untroubled, ValidSpec, ChildrenOf,
         Metadata.Owner, Has;
    var x, wanted := JobOf(p, h, inputs), WantedJob(p, inputs.placements, inputs.resolve);
    var store, clusters := ReconcilePass(p, h, inputs).hub.store, ResolutionOf(p, inputs).clusters;
    UntroubledPassConverges(p, h, inputs);
    WantedByPass(p, h, inputs);
    hide UnwantedWork;
    forall k
      ensures UnwantedWork(store, clusters, x, k) <==> Unwanted(store, p, inputs.placements, inputs.resolve, k)
    {
      SameUnwanted(store, clusters, x, wanted, k);
    }
    forall k
      ensures UnwantedWork(h.store, clusters, x, k) <==> Unwanted(h.store, p, inputs.placements, inputs.resolve, k)
    {
      SameUnwanted(h.store, clusters, x, wanted, k);
    }
  }

  lemma SameSetWanted(p: ReplicaSet, q: ReplicaSet, store: Store, placements: Placements, resolve: Resolver)
    requires p.id == q.id && p.spec == q.spec
    ensures NoneUnwanted(store, p, placements, resolve) <==> NoneUnwanted(store, q, placements, resolve)
    ensures UnwantedStop(store, p, placements, resolve) <==> UnwantedStop(store, q, placements, resolve)
    ensures SetConverged(store, p, placements, resolve) <==> SetConverged(store, q, placements, resolve)
  {
    hide UnwantedWork, Converged, WantedJob, Resolve;
    SameWanted(p, q, placements, resolve);
    assert forall k :: Unwanted(store, p, placements, resolve, k) <==> Unwanted(store, q, placements, resolve, k);
  }

  ghost function AfterPass(w: World, p: ReplicaSet, inputs: Inputs): World {
    Next(w, PassOver(NameOf(p.id), inputs))
  }

  lemma StoreAfterPass(w: World, p: ReplicaSet, inputs: Inputs)
    requires NameOf(p.id) in w.sets
    ensures AfterPass(w, p, inputs).store
            == ReconcilePass(w.sets[NameOf(p.id)], HubState(w.store, {}), inputs).hub.store
  {
    hide ReconcilePass;
  }

  /** What such a pass does: unwanted works are stopped, and without any the set is converged. */
  lemma SmoothPass(w: World, p: ReplicaSet, inputs: Inputs)
    requires WorldOk(w) && Smooth(w, p, inputs)
    ensures var after := AfterPass(w, p, inputs);
            && WorldOk(after) && Stays(after, p)
            && UnwantedStop(after.store, p, inputs.placements, inputs.resolve)
            && (NoneUnwanted(w.store, p, inputs.placements, inputs.resolve)
                ==> SetConverged(after.store, p, inputs.placements, inputs.resolve))
  {
    hide ReconcilePass, ReachesChildren, Untroubled, WorldOk, NoneUnwanted, UnwantedStop, SetConverged, Next, Steady;
    var q, h := w.sets[NameOf(p.id)], HubState(w.store, {});
    NextOk(w, PassOver(NameOf(p.id), inputs));
    PassSteady(p, inputs);
    SteadyStays(w, PassOver(NameOf(p.id), inputs), p, inputs.placements, inputs.resolve);
    StoreAfterPass(w, p, inputs);
    SmoothStops(q, h, inputs);
    SameSetWanted(p, q, ReconcilePass(q, h, inputs).hub.store, inputs.placements, inputs.resolve);
    SameSetWanted(p, q, w.store, inputs.placements, inputs.resolve);
  }

  lemma PassSteady(p: ReplicaSet, inputs: Inputs)
    ensures Steady(PassOver(NameOf(p.id), inputs), p, inputs.placements, inputs.resolve)
  {
  }

  /** The agents have let go of every unwanted work that was on its way out in `before`. */
  ghost predicate UnwantedReleased(before: World, after: World, p: ReplicaSet, inputs: Inputs) {
    forall k | Unwanted(before.store, p, inputs.placements, inputs.resolve, k) && before.store[k].terminating ::
      k !in after.store
  }

  lemma NothingUnwanted(a: World, b: World, p: ReplicaSet, inputs: Inputs)
    requires UnwantedReleased(a, b, p, inputs)
    requires UnwantedStop(a.store, p, inputs.placements, inputs.resolve)
    requires NoMoreUnwanted(a.store, b.store, p, inputs.placements, inputs.resolve)
    ensures NoneUnwanted(b.store, p, inputs.placements, inputs.resolve)
  {
    hide Resolve, WantedJob, ChildrenOf, Has, Metadata.Owner;
  }

  /** A run from `a` to `b` during which the set stays as it is, and at whose end those agents have let go. */
  ghost predicate Settles(a: World, between: seq<Event>, b: World, p: ReplicaSet, inputs: Inputs) {
    && AllowedRun(a, between) && b == WorldAfter(a, between)
    && (forall e | e in between :: Steady(e, p, inputs.placements, inputs.resolve))
    && UnwantedReleased(a, b, p, inputs)
  }

  lemma SettlesWithout(a: World, between: seq<Event>, b: World, p: ReplicaSet, inputs: Inputs)
    requires WorldOk(a) && Stays(a, p) && UnwantedStop(a.store, p, inputs.placements, inputs.resolve)
    requires Settles(a, between, b, p, inputs)
    ensures WorldOk(b) && NoneUnwanted(b.store, p, inputs.placements, inputs.resolve)
  {
    hide WorldOk, Stays, Steady, AllowedRun, WorldAfter, NoneUnwanted, UnwantedStop, NoMoreUnwanted, UnwantedReleased;
    SteadyRun(a, between, p, inputs.placements, inputs.resolve);
    NothingUnwanted(a, b, p, inputs);
  }

  /** Two smooth passes lead a set to exactly what it wants, whatever happens in between to other sets and to its own
      children, once the agents have let go of the unwanted works that the first pass stopped. */
  lemma TwoPassesConverge(w: World, p: ReplicaSet, first: Inputs, between: seq<Event>, b: World, second: Inputs)
    requires WorldOk(w) && Smooth(w, p, first) && Settles(AfterPass(w, p, first), between, b, p, first)
    requires Smooth(b, p, second) && second.placements == first.placements && second.resolve == first.resolve
    ensures SetConverged(AfterPass(b, p, second).store, p, first.placements, first.resolve)
  {
    hide AfterPass, WorldOk, Stays, SetConverged, Smooth, NoneUnwanted, UnwantedStop, Settles;
    SmoothPass(w, p, first);
    SettlesWithout(AfterPass(w, p, first), between, b, p, first);
    SmoothPass(b, p, second);
  }
}
