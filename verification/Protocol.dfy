/** Whole runs: passes over several sets interleaved with users, other controllers and the OCM agents. */
module Protocol {
  import opened Model
  import opened Metadata
  import opened Hub
  import opened Cleanup
  import Rollout
  import Planning
  import opened Reconciler
  import PassEffects
  import opened PassOutcomes

  /** `used` are the uids given out so far; the API server never gives one twice. */
  datatype World = World(sets: map<SetName, ReplicaSet>, store: Store, used: set<string>)

  datatype Event =
    | PassOver(name: SetName, inputs: Inputs)
    | CreateSet(created: ReplicaSet)
    | DeleteSet(name: SetName)
    | EditSet(edited: ReplicaSet)
    | ChangeChild(key: Key, child: Child)
    | RemoveChild(key: Key)
    | Release(key: Key)

  /** What the surroundings may do. Only this controller labels children as a set's own (others may take such labels
      away), and only it adds or removes its finalizer; a deletion cannot be taken back; agents hold back and release
      what is being deleted. */
  predicate Allowed(w: World, e: Event) {
    match e
    case PassOver(_, _) => true
    case CreateSet(p) => NameOf(p.id) !in w.sets && p.id.uid !in w.used && !p.deleting
    case DeleteSet(n) => n in w.sets
    case EditSet(p) =>
      NameOf(p.id) in w.sets
      && var current := w.sets[NameOf(p.id)];
         p.id == current.id && p.deleting == current.deleting
             && (FINALIZER in p.finalizers <==> FINALIZER in current.finalizers)
    case ChangeChild(k, c) =>
      if k in w.store then
        && (Owner(c.labels) == None || Owner(c.labels) == Owner(w.store[k].labels))
        && (w.store[k].terminating ==> c.terminating) && (c.terminating ==> c.held)
      else Owner(c.labels) == None && !c.terminating
    case RemoveChild(k) => k in w.store && !w.store[k].held
    case Release(k) => k in w.store && w.store[k].terminating
  }

  function Next(w: World, e: Event): World
    requires Allowed(w, e)
  {
    match e
    case PassOver(n, inputs) =>
      var r := ReconcileNamed(w.sets, HubState(w.store, {}), n, inputs);
      w.(sets := r.sets, store := r.hub.store)
    case CreateSet(p) => w.(sets := Put(w.sets, p), used := w.used + {p.id.uid})
    case DeleteSet(n) => w.(sets := Put(w.sets, w.sets[n].(deleting := true)))
    case EditSet(p) => w.(sets := Put(w.sets, p))
    case ChangeChild(k, c) => w.(store := w.store[k := c])
    case RemoveChild(k) => w.(store := w.store - {k})
    case Release(k) => w.(store := w.store - {k})
  }

  ghost predicate AllowedRun(w: World, events: seq<Event>)
    decreases |events|, 0
  {
    |events| == 0
        || (AllowedRun(w, events[..|events| - 1])
            && Allowed(WorldAfter(w, events[..|events| - 1]), events[|events| - 1]))
  }

  /** The world after a run. */
  ghost function WorldAfter(w: World, events: seq<Event>): World
    requires AllowedRun(w, events)
    decreases |events|, 1
  {
    if |events| == 0 then w else Next(WorldAfter(w, events[..|events| - 1]), events[|events| - 1])
  }

  // ---------------------------------------------------------------- no orphans

  ghost predicate Holds(sets: map<SetName, ReplicaSet>, id: SetId) {
    NameOf(id) in sets && sets[NameOf(id)].id == id && FINALIZER in sets[NameOf(id)].finalizers
  }

  /** Every child that is labelled as a set's own has that very set still there, held by the finalizer. */
  ghost predicate NoOrphans(w: World) {
    forall k | k in w.store && Owner(w.store[k].labels).Some? :: Holds(w.sets, Owner(w.store[k].labels).value)
  }

  ghost predicate WorldOk(w: World) {
    SetsOk(w.sets) && StoreOk(w.store) && (forall n | n in w.sets :: w.sets[n].id.uid in w.used) && NoOrphans(w)
  }

  /** A hub on which the controller has not done anything yet. */
  ghost predicate Untouched(w: World) {
    SetsOk(w.sets) && StoreOk(w.store) && (forall n | n in w.sets :: w.sets[n].id.uid in w.used)
    && forall k | k in w.store :: Owner(w.store[k].labels) == None
  }

  /** A pass lets go of the finalizer only when none of the set's children is left. */
  lemma PassHoldsOn(p: ReplicaSet, h: HubState, inputs: Inputs, k: Key)
    requires var after := ReconcilePass(p, h, inputs);
             k in after.hub.store && Owner(after.hub.store[k].labels) == Some(p.id)
    requires FINALIZER !in ReconcilePass(p, h, inputs).parent.finalizers
    ensures FINALIZER !in p.finalizers && k in h.store && Owner(h.store[k].labels) == Some(p.id)
  {
    hide Owner, ReconcilePass, DeletePass;
    if p.deleting {
      DeletedPassHub(p, h, inputs);
      DeletePassShrinks(h, p.id, inputs.faults, k);
      DeletedPassHoldsOn(p, h, inputs);
      if DeletePass(h, p.id, inputs.faults).1.CleanedUp? { CleanedUpIsEmpty(h, p.id, inputs.faults, k); }
    } else {
      LivePassHoldsOn(p, h, inputs);
    }
  }

  lemma CleanedUpIsEmpty(h: HubState, id: SetId, faults: set<Call>, k: Key)
    requires DeletePass(h, id, faults).1.CleanedUp? && k in h.store
    ensures Owner(h.store[k].labels) != Some(id)
  {
    hide Owner, OwnedBySet, DeleteFails, DeleteAll;
    OwnedKeys(h.store, id, WorkKind);
    OwnedKeys(h.store, id, AccountKind);
    assert k !in Owned(h.store, id, k.kind);
  }

  lemma DeletedPassHoldsOn(p: ReplicaSet, h: HubState, inputs: Inputs)
    requires p.deleting && FINALIZER !in ReconcilePass(p, h, inputs).parent.finalizers
    ensures FINALIZER !in p.finalizers || DeletePass(h, p.id, inputs.faults).1.CleanedUp?
  {
    hide DeletePass, ResolvedPass, ValidSpec, WaitStatus;
  }

  lemma LivePassHoldsOn(p: ReplicaSet, h: HubState, inputs: Inputs)
    requires !p.deleting && FINALIZER !in ReconcilePass(p, h, inputs).parent.finalizers
    ensures FINALIZER !in p.finalizers && ReconcilePass(p, h, inputs).hub == h
  {
    hide ReconcileChildren, Planning.PlanRefs, Rollout.Resolve, PlanJob, ApplyJob, ValidSpec;
  }

  lemma PassOk(w: World, n: SetName, inputs: Inputs)
    requires WorldOk(w)
    ensures WorldOk(Next(w, PassOver(n, inputs)))
  {
    hide ReconcilePass, Owner, OnlyOwn, StoreOk;
    if n in w.sets {
      var p, h := w.sets[n], HubState(w.store, {});
      var pass := ReconcilePass(p, h, inputs);
      var after := Next(w, PassOver(n, inputs));
      PassEffects.PassKeepsSpec(p, h, inputs);
      PassEffects.PassOnlyOwn(p, h, inputs);
      forall k | k in after.store && Owner(after.store[k].labels).Some?
        ensures Holds(after.sets, Owner(after.store[k].labels).value)
      {
        if Owner(after.store[k].labels) == Some(p.id) {
          if FINALIZER !in pass.parent.finalizers { PassHoldsOn(p, h, inputs, k); }
        } else {
          ForeignUntouched(p.id, h, pass.hub, k);
        }
      }
    }
  }

  lemma ForeignUntouched(id: SetId, h: HubState, after: HubState, k: Key)
    requires OnlyOwn(id, h, after) && k in after.store && Owner(after.store[k].labels) != Some(id)
    ensures k in h.store && h.store[k] == after.store[k]
  {
    hide Owner;
    assert Get(h.store, k) == Some(after.store[k]);
  }

  lemma NextOk(w: World, e: Event)
    requires WorldOk(w) && Allowed(w, e)
    ensures WorldOk(Next(w, e))
  {
    hide ReconcileNamed, Owner;
    match e
    case PassOver(n, inputs) => PassOk(w, n, inputs);
    case _ =>
  }

  /** In every reachable world a child labelled as a set's own implies that this very set exists and still carries
      the finalizer. */
  lemma {:induction false} ReachableNoOrphans(w: World, events: seq<Event>)
    requires Untouched(w) && AllowedRun(w, events)
    ensures WorldOk(WorldAfter(w, events)) && NoOrphans(WorldAfter(w, events))
  {
    hide Allowed, Next, Owner;
    if |events| > 0 {
      ReachableNoOrphans(w, events[..|events| - 1]);
      NextOk(WorldAfter(w, events[..|events| - 1]), events[|events| - 1]);
    }
  }

  // ---------------------------------------------------------------- taking hold

  /** The set is there, live and held. */
  ghost predicate HeldLive(w: World, id: SetId) {
    Holds(w.sets, id) && !w.sets[NameOf(id)].deleting
  }

  /** Any pass over a live set holds it afterwards, unless the finalizer cannot be written. */
  lemma PassTakesHold(w: World, n: SetName, inputs: Inputs)
    requires WorldOk(w) && n in w.sets && !w.sets[n].deleting && Call.PatchFinalizers !in inputs.faults
    ensures WorldOk(Next(w, PassOver(n, inputs))) && HeldLive(Next(w, PassOver(n, inputs)), w.sets[n].id)
  {
    hide ReconcilePass, NoOrphans, StoreOk;
    var h := HubState(w.store, {});
    PassOk(w, n, inputs);
    FinalizersExactly(w.sets[n], h, inputs);
    PassEffects.PassKeepsSpec(w.sets[n], h, inputs);
  }

  lemma StepKeepsHold(w: World, e: Event, id: SetId)
    requires WorldOk(w) && Allowed(w, e) && HeldLive(w, id) && e != DeleteSet(NameOf(id))
    ensures HeldLive(Next(w, e), id)
  {
    hide ReconcilePass, NoOrphans, StoreOk, Owner;
    match e
    case PassOver(n, inputs) =>
      if n in w.sets {
        FinalizersExactly(w.sets[n], HubState(w.store, {}), inputs);
        PassEffects.PassKeepsSpec(w.sets[n], HubState(w.store, {}), inputs);
      }
    case _ =>
  }

  /** And from then on the set is held in every reachable world, until someone deletes it. */
  lemma {:induction false} HeldUntilDeleted(w: World, events: seq<Event>, id: SetId)
    requires WorldOk(w) && AllowedRun(w, events) && HeldLive(w, id)
    requires forall e | e in events :: e != DeleteSet(NameOf(id))
    ensures WorldOk(WorldAfter(w, events)) && HeldLive(WorldAfter(w, events), id)
  {
    hide Allowed, Next, HeldLive, WorldOk;
    var n := |events| - 1;
    if n >= 0 {
      assert forall e :: e in events[..n] ==> e in events;
      assert events[n] in events;
      HeldUntilDeleted(w, events[..n], id);
      NextOk(WorldAfter(w, events[..n]), events[n]);
      StepKeepsHold(WorldAfter(w, events[..n]), events[n], id);
    }
  }

  // ---------------------------------------------------------------- ownership

  /** No pass changes whose an existing child is, and others can at most take the labels away. */
  lemma OwnerKept(w: World, e: Event, k: Key)
    requires WorldOk(w) && Allowed(w, e) && k in w.store && k in Next(w, e).store
    ensures var before, after := Owner(w.store[k].labels), Owner(Next(w, e).store[k].labels);
            after == before || (after == None && e.ChangeChild? && e.key == k)
  {
    hide ReconcilePass, Owner;
    match e
    case PassOver(n, inputs) =>
      if n in w.sets { PassEffects.PassOnlyOwn(w.sets[n], HubState(w.store, {}), inputs); }
    case _ =>
  }

  ghost predicate AlwaysThere(w: World, events: seq<Event>, k: Key)
    requires AllowedRun(w, events)
  {
    k in WorldAfter(w, events).store && (|events| > 0 ==> AlwaysThere(w, events[..|events| - 1], k))
  }

  /** Nobody has edited the labels of a child away. */
  ghost predicate NeverStripped(w: World, events: seq<Event>, k: Key) {
    forall e | e in events && e.ChangeChild? && e.key == k :: Owner(e.child.labels).Some?
  }

  /** As long as a child exists it never becomes another set's, and it stays its set's own unless someone strips its
      labels, whatever passes run over whatever sets. */
  lemma {:induction false} OwnerForLife(w: World, events: seq<Event>, k: Key)
    requires WorldOk(w) && AllowedRun(w, events) && AlwaysThere(w, events, k) && k in w.store
    ensures WorldOk(WorldAfter(w, events))
    ensures var before, after := Owner(w.store[k].labels), Owner(WorldAfter(w, events).store[k].labels);
            (after == before || after == None) && (NeverStripped(w, events, k) ==> after == before)
  {
    hide Allowed, Next, Owner, WorldOk;
    var n := |events| - 1;
    if n >= 0 {
      var before := WorldAfter(w, events[..n]);
      OwnerForLife(w, events[..n], k);
      NextOk(before, events[n]);
      OwnerKept(before, events[n], k);
      assert events[n] in events;
      if events[n].ChangeChild? && events[n].key == k { ChangedOwner(before, events[n]); }
    }
  }

  lemma ChangedOwner(w: World, e: Event)
    requires Allowed(w, e) && e.ChangeChild?
    ensures e.key in Next(w, e).store && Next(w, e).store[e.key] == e.child
  {
    hide ReconcileNamed;
  }

  /** Passes over other sets, however many, leave a set's children exactly as they are. */
  lemma {:induction false} OthersLeaveAlone(w: World, events: seq<Event>, id: SetId, k: Key)
    requires WorldOk(w) && AllowedRun(w, events) && k in w.store && Owner(w.store[k].labels) == Some(id)
    requires forall e | e in events :: e.PassOver? && e.name != NameOf(id)
    ensures WorldOk(WorldAfter(w, events)) && Get(WorldAfter(w, events).store, k) == Some(w.store[k])
  {
    hide ReconcilePass, Owner, WorldOk;
    var n := |events| - 1;
    if n >= 0 {
      OthersLeaveAlone(w, events[..n], id, k);
      assert events[n] in events;
      var before := WorldAfter(w, events[..n]);
      NextOk(before, events[n]);
      OtherPassLeavesAlone(before, events[n].name, events[n].inputs, id, k);
    }
  }

  lemma OtherPassLeavesAlone(w: World, n: SetName, inputs: Inputs, id: SetId, k: Key)
    requires WorldOk(w) && n != NameOf(id) && k in w.store && Owner(w.store[k].labels) == Some(id)
    ensures Get(Next(w, PassOver(n, inputs)).store, k) == Some(w.store[k])
  {
    hide ReconcilePass, Owner;
    if n in w.sets { PassEffects.PassOnlyOwn(w.sets[n], HubState(w.store, {}), inputs); }
  }

  // ---------------------------------------------------------------- works before accounts

  /** A set is being deleted, or is gone for good. */
  ghost predicate Leaving(w: World, id: SetId) {
    id.uid in w.used && (NameOf(id) in w.sets && w.sets[NameOf(id)].id == id ==> w.sets[NameOf(id)].deleting)
  }

  ghost predicate NoWorks(store: Store, id: SetId) {
    forall k | k in store && k.kind.WorkKind? :: Owner(store[k].labels) != Some(id)
  }

  lemma LeavingForGood(w: World, e: Event, id: SetId)
    requires WorldOk(w) && Allowed(w, e) && Leaving(w, id)
    ensures Leaving(Next(w, e), id)
  {
    hide ReconcilePass, Owner, OnlyOwn, StoreOk, NoOrphans;
    match e
    case PassOver(n, inputs) =>
      if n in w.sets { PassEffects.PassKeepsSpec(w.sets[n], HubState(w.store, {}), inputs); }
    case _ =>
  }

  /** A set that is being deleted gets no new children. */
  lemma NothingNew(w: World, e: Event, id: SetId, k: Key)
    requires WorldOk(w) && Allowed(w, e) && Leaving(w, id)
    requires k in Next(w, e).store && Owner(Next(w, e).store[k].labels) == Some(id)
    ensures k in w.store && Owner(w.store[k].labels) == Some(id)
            && (w.store[k].terminating ==> Next(w, e).store[k].terminating)
  {
    hide ReconcilePass, Owner, NoOrphans, Leaving;
    match e
    case PassOver(n, inputs) =>
      if n in w.sets {
        var p, h := w.sets[n], HubState(w.store, {});
        PassEffects.PassOnlyOwn(p, h, inputs);
        if p.id == id { DeletingAddsNothing(w, n, inputs, k); }
            else { ForeignUntouched(p.id, h, ReconcilePass(p, h, inputs).hub, k); }
      }
    case _ =>
  }

  /** Deleting children takes some away and marks others, no more. */
  lemma DeletePassShrinks(h: HubState, id: SetId, faults: set<Call>, k: Key)
    requires k in DeletePass(h, id, faults).0.store
    ensures k in h.store && DeletePass(h, id, faults).0.store[k].labels == h.store[k].labels
    ensures h.store[k].terminating ==> DeletePass(h, id, faults).0.store[k].terminating
  {
    hide Owned, DeleteFails;
  }

  lemma DeletedPassHub(p: ReplicaSet, h: HubState, inputs: Inputs)
    requires p.deleting
    ensures ReconcilePass(p, h, inputs).hub == DeletePass(h, p.id, inputs.faults).0
  {
    hide DeletePass, ResolvedPass, ValidSpec, WaitStatus;
  }

  lemma DeletingAddsNothing(w: World, n: SetName, inputs: Inputs, k: Key)
    requires n in w.sets && SetsOk(w.sets) && Leaving(w, w.sets[n].id)
    requires k in Next(w, PassOver(n, inputs)).store
    ensures k in w.store && Next(w, PassOver(n, inputs)).store[k].labels == w.store[k].labels
    ensures w.store[k].terminating ==> Next(w, PassOver(n, inputs)).store[k].terminating
  {
    hide DeletePass, ReconcilePass;
    DeletedPassHub(w.sets[n], HubState(w.store, {}), inputs);
    DeletePassShrinks(HubState(w.store, {}), w.sets[n].id, inputs.faults, k);
  }

  lemma {:induction false} NoWorksForGood(w: World, events: seq<Event>, id: SetId)
    requires WorldOk(w) && AllowedRun(w, events) && Leaving(w, id) && NoWorks(w.store, id)
    ensures var after := WorldAfter(w, events); WorldOk(after) && Leaving(after, id) && NoWorks(after.store, id)
  {
    hide Allowed, Next, Owner, WorldOk, Leaving;
    var n := |events| - 1;
    if n >= 0 {
      NoWorksForGood(w, events[..n], id);
      var before := WorldAfter(w, events[..n]);
      NextOk(before, events[n]);
      LeavingForGood(before, events[n], id);
      forall k | k in WorldAfter(w, events).store && k.kind.WorkKind?
        ensures Owner(WorldAfter(w, events).store[k].labels) != Some(id)
      {
        if Owner(WorldAfter(w, events).store[k].labels) == Some(id) { NothingNew(before, events[n], id, k); }
      }
    }
  }

  /** When a pass over a deleted set deletes one of its accounts, none of its works is left, and none ever appears
      again. */
  lemma CredentialsGoLast(w: World, n: SetName, inputs: Inputs, account: Key, later: seq<Event>)
    requires WorldOk(w) && n in w.sets && w.sets[n].deleting
    requires account.kind.AccountKind?
             && Delete(account) in ReconcilePass(w.sets[n], HubState(w.store, {}), inputs).hub.writes
    requires AllowedRun(w, later)
    ensures NoWorks(w.store, w.sets[n].id) && NoWorks(WorldAfter(w, later).store, w.sets[n].id)
  {
    hide Owner, AllowedRun, WorldAfter, ReconcilePass;
    DeletedPassHub(w.sets[n], HubState(w.store, {}), inputs);
    AccountsDeletedLast(w.store, w.sets[n].id, inputs.faults, account);
    NoWorksForGood(w, later, w.sets[n].id);
  }

  lemma AccountsDeletedLast(store: Store, id: SetId, faults: set<Call>, account: Key)
    requires account.kind.AccountKind? && Delete(account) in DeletePass(HubState(store, {}), id, faults).0.writes
    ensures NoWorks(store, id)
  {
    hide Owner, OwnedBySet, DeleteFails;
    OwnedKeys(store, id, WorkKind);
    assert Owned(store, id, WorkKind) == {};
    forall k | k in store && k.kind.WorkKind? ensures Owner(store[k].labels) != Some(id) {
      assert k !in Owned(store, id, WorkKind);
    }
  }
}
