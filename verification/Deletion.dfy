/** Deleting a set always gets on: only the agents can hold it up (reconcileDelete, waitForCleanup). */
module Deletion {
  import opened Model
  import opened Metadata
  import Names
  import opened Hub
  import Cleanup
  import opened Reconciler
  import PassEffects
  import opened Protocol

  /** A live child counts twice, a terminating one once, and the finalizer once. */
  ghost function Measure(w: World, id: SetId): nat {
    |OwnedOf(w.store, id)| + |LiveOf(w.store, id)| + if Holds(w.sets, id) then 1 else 0
  }

  // ---------------------------------------------------------------- nothing comes back

  lemma HoldNotRegained(w: World, e: Event, id: SetId)
    requires WorldOk(w) && Allowed(w, e) && Leaving(w, id) && Holds(Next(w, e).sets, id)
    ensures Holds(w.sets, id)
  {
    hide ReconcilePass, Owner, OnlyOwn, StoreOk, NoOrphans;
    match e
    case PassOver(n, inputs) =>
      if n in w.sets {
        PassEffects.PassKeepsSpec(w.sets[n], HubState(w.store, {}), inputs);
        if w.sets[n].id == id { DeletingKeepsNoHold(w.sets[n], HubState(w.store, {}), inputs); }
      }
    case _ =>
  }

  lemma DeletingKeepsNoHold(p: ReplicaSet, h: HubState, inputs: Inputs)
    requires p.deleting
    ensures ReconcilePass(p, h, inputs).parent.finalizers <= p.finalizers
  {
    hide ResolvedPass, ValidSpec, Cleanup.DeletePass, WaitStatus;
  }

  /** What is left of a set that is being deleted only gets less, whoever acts. */
  lemma OnlyShrinks(w: World, e: Event, id: SetId)
    requires WorldOk(w) && Allowed(w, e) && Leaving(w, id)
    ensures OwnedOf(Next(w, e).store, id) <= OwnedOf(w.store, id) && LiveOf(Next(w, e).store, id) <= LiveOf(w.store, id)
    ensures Holds(Next(w, e).sets, id) ==> Holds(w.sets, id)
    ensures WorldOk(Next(w, e)) && Leaving(Next(w, e), id)
  {
    hide Owner, Allowed, Next, Leaving, Holds, WorldOk;
    var after := Next(w, e);
    NextOk(w, e);
    LeavingForGood(w, e, id);
    if Holds(after.sets, id) { HoldNotRegained(w, e, id); }
    forall k | k in OwnedOf(after.store, id)
      ensures k in OwnedOf(w.store, id) && (k in LiveOf(after.store, id) ==> k in LiveOf(w.store, id))
    {
      NothingNew(w, e, id, k);
    }
  }

  lemma MeasureNeverGrows(w: World, e: Event, id: SetId)
    requires WorldOk(w) && Allowed(w, e) && Leaving(w, id)
    ensures Measure(Next(w, e), id) <= Measure(w, id)
  {
    hide Owner, Allowed, Next, Leaving, Holds, WorldOk, OwnedOf, LiveOf;
    OnlyShrinks(w, e, id);
    Names.SubsetSize(OwnedOf(Next(w, e).store, id), OwnedOf(w.store, id));
    Names.SubsetSize(LiveOf(Next(w, e).store, id), LiveOf(w.store, id));
  }

  /** An agent that lets go of a child brings the deletion closer. */
  lemma ReleaseProgress(w: World, k: Key, id: SetId)
    requires WorldOk(w) && Allowed(w, Release(k)) && Leaving(w, id) && Owner(w.store[k].labels) == Some(id)
    ensures Measure(Next(w, Release(k)), id) < Measure(w, id)
  {
    hide Owner, Leaving, Holds, WorldOk, ReconcileNamed;
    OnlyShrinks(w, Release(k), id);
    assert k in OwnedOf(w.store, id) && k !in OwnedOf(Next(w, Release(k)).store, id);
    Names.SubsetSize(OwnedOf(Next(w, Release(k)).store, id), OwnedOf(w.store, id));
    Names.SubsetSize(LiveOf(Next(w, Release(k)).store, id), LiveOf(w.store, id));
  }

  // ---------------------------------------------------------------- passes get on

  ghost predicate NoLive(store: Store, id: SetId, kind: Kind) {
    forall k | k in LiveOf(store, id) :: k.kind != kind
  }

  /** What an untroubled pass over a deleted set does: it stops every live work; without works every live account;
      without children it gives up the finalizer. */
  lemma UntroubledPass(w: World, id: SetId, inputs: Inputs)
    requires WorldOk(w) && Leaving(w, id) && inputs.faults == {} && Holds(w.sets, id)
    ensures var after := Next(w, PassOver(NameOf(id), inputs));
            && NoLive(after.store, id, WorkKind)
            && (NoWorks(w.store, id) ==> NoLive(after.store, id, AccountKind))
            && (OwnedOf(w.store, id) == {} ==> !Holds(after.sets, id))
  {
    hide Owner, OwnedBySet, ResolvedPass, ValidSpec, WaitStatus, NoOrphans, StoreOk;
    OwnedKeys(w.store, id, WorkKind);
    OwnedKeys(w.store, id, AccountKind);
    var works, accounts := Owned(w.store, id, WorkKind), Owned(w.store, id, AccountKind);
    var h := HubState(w.store, {});
    var after := Next(w, PassOver(NameOf(id), inputs));
    assert NoWorks(w.store, id) ==> works == {};
    forall k | k in LiveOf(after.store, id)
      ensures k.kind.AccountKind? && !NoWorks(w.store, id)
    {
      assert k in works || k in accounts;
      assert DeleteChild(k) !in inputs.faults;
    }
  }

  /** There are children of a kind, and all of them are on their way out. */
  ghost predicate AllStopped(store: Store, id: SetId, kind: Kind) {
    && (exists k :: k in OwnedOf(store, id) && k.kind == kind)
    && forall k | k in OwnedOf(store, id) && k.kind == kind :: store[k].terminating
  }

  /** A deleted set waits: for its works, or, when it has none, for its accounts. */
  ghost predicate Waits(store: Store, id: SetId) {
    AllStopped(store, id, WorkKind) || (NoWorks(store, id) && AllStopped(store, id, AccountKind))
  }

  /** The kind of child that a waiting set waits for. */
  ghost function AwaitedKind(store: Store, id: SetId): Kind {
    if NoWorks(store, id) then AccountKind else WorkKind
  }

  /** An untroubled pass over a deleted set brings the deletion strictly closer, except exactly when it only waits or
      nothing is left to do; and while it waits, the agent of a child it waits for can bring it closer. */
  lemma PassProgress(w: World, id: SetId, inputs: Inputs)
    requires WorldOk(w) && Leaving(w, id) && inputs.faults == {}
    ensures var before, after := Measure(w, id), Measure(Next(w, PassOver(NameOf(id), inputs)), id);
            after <= before && (after == before <==> before == 0 || Waits(w.store, id))
    ensures Waits(w.store, id) ==> Releasable(w, id, AwaitedKind(w.store, id))
  {
    hide Owner, Next, Leaving, NoWorks;
    MeasureNeverGrows(w, PassOver(NameOf(id), inputs), id);
    if !Holds(w.sets, id) {
      NothingHeld(w, id);
    } else if Waits(w.store, id) {
      WaitingPass(w, id, inputs);
      AwaitedReleasable(w, id);
    } else {
      WorkingPass(w, id, inputs);
    }
  }

  ghost predicate Releasable(w: World, id: SetId, kind: Kind) {
    exists k :: Allowed(w, Release(k)) && Owner(w.store[k].labels) == Some(id) && k.kind == kind
  }

  lemma AwaitedReleasable(w: World, id: SetId)
    requires Waits(w.store, id)
    ensures Releasable(w, id, AwaitedKind(w.store, id))
  {
    hide Owner;
    var kind := AwaitedKind(w.store, id);
    assert AllStopped(w.store, id, kind);
    var k :| k in OwnedOf(w.store, id) && k.kind == kind;
    assert Allowed(w, Release(k));
  }

  lemma WorkingPass(w: World, id: SetId, inputs: Inputs)
    requires WorldOk(w) && Leaving(w, id) && inputs.faults == {} && Holds(w.sets, id) && !Waits(w.store, id)
    ensures Measure(Next(w, PassOver(NameOf(id), inputs)), id) < Measure(w, id)
  {
    hide Owner, Next, Leaving, Holds, WorldOk;
    var after := Next(w, PassOver(NameOf(id), inputs));
    OnlyShrinks(w, PassOver(NameOf(id), inputs), id);
    UntroubledPass(w, id, inputs);
    Names.SubsetSize(OwnedOf(after.store, id), OwnedOf(w.store, id));
    Names.SubsetSize(LiveOf(after.store, id), LiveOf(w.store, id));
    if OwnedOf(w.store, id) != {} { LiveStops(w.store, after.store, id); }
  }

  lemma LiveStops(before: Store, after: Store, id: SetId)
    requires OwnedOf(before, id) != {} && !Waits(before, id)
    requires NoLive(after, id, WorkKind) && (NoWorks(before, id) ==> NoLive(after, id, AccountKind))
    ensures LiveOf(after, id) != LiveOf(before, id)
  {
    hide Owner;
    if NoWorks(before, id) {
      assert forall k :: k in OwnedOf(before, id) ==> k.kind == AccountKind;
      var k :| k in OwnedOf(before, id) && k.kind == AccountKind && !before[k].terminating;
      assert k in LiveOf(before, id);
    } else {
      var work :| work in before && work.kind.WorkKind? && Owner(before[work].labels) == Some(id);
      assert work in OwnedOf(before, id) && work.kind == WorkKind;
      var k :| k in OwnedOf(before, id) && k.kind == WorkKind && !before[k].terminating;
      assert k in LiveOf(before, id);
    }
  }

  lemma WaitingDelete(store: Store, id: SetId)
    requires Waits(store, id)
    ensures var (after, verdict) := Cleanup.DeletePass(HubState(store, {}), id, {});
            after.store == store && verdict.WaitFor?
  {
    hide Owner, OwnedBySet;
    OwnedKeys(store, id, WorkKind);
    OwnedKeys(store, id, AccountKind);
    var works, accounts := Owned(store, id, WorkKind), Owned(store, id, AccountKind);
    assert forall k :: k in OwnedOf(store, id) <==> k in works || k in accounts;
    assert Cleanup.Live(store, works) == {};
    assert works == {} ==> Cleanup.Live(store, accounts) == {} && accounts != {};
    assert DeleteAll(HubState(store, {}), {}, {}).store == store;
  }

  lemma WaitingPass(w: World, id: SetId, inputs: Inputs)
    requires WorldOk(w) && Leaving(w, id) && inputs.faults == {} && Holds(w.sets, id) && Waits(w.store, id)
    ensures Measure(Next(w, PassOver(NameOf(id), inputs)), id) == Measure(w, id)
  {
    hide Owner, ResolvedPass, ValidSpec, WaitStatus, NoOrphans, StoreOk, Cleanup.DeletePass, Waits, OwnedOf, LiveOf;
    WaitingDelete(w.store, id);
  }

  lemma NothingHeld(w: World, id: SetId)
    requires NoOrphans(w) && !Holds(w.sets, id)
    ensures OwnedOf(w.store, id) == {} && LiveOf(w.store, id) == {}
  {
    hide Owner, Holds;
  }

  // ---------------------------------------------------------------- three passes

  lemma {:induction false} RunShrinks(w: World, events: seq<Event>, id: SetId)
    requires WorldOk(w) && AllowedRun(w, events) && Leaving(w, id)
    ensures var after := WorldAfter(w, events);
            && WorldOk(after) && Leaving(after, id)
            && OwnedOf(after.store, id) <= OwnedOf(w.store, id) && LiveOf(after.store, id) <= LiveOf(w.store, id)
            && (Holds(after.sets, id) ==> Holds(w.sets, id))
  {
    hide Owner, Allowed, Next, Leaving, Holds, WorldOk, OwnedOf, LiveOf;
    var n := |events| - 1;
    if n >= 0 {
      RunShrinks(w, events[..n], id);
      OnlyShrinks(WorldAfter(w, events[..n]), events[n], id);
    }
  }

  lemma PassShrinks(w: World, id: SetId, inputs: Inputs)
    requires WorldOk(w) && Leaving(w, id) && inputs.faults == {}
    ensures var after := Next(w, PassOver(NameOf(id), inputs));
            && WorldOk(after) && Leaving(after, id)
            && OwnedOf(after.store, id) <= OwnedOf(w.store, id)
            && NoLive(after.store, id, WorkKind)
            && (NoWorks(w.store, id) ==> NoLive(after.store, id, AccountKind))
            && (OwnedOf(w.store, id) == {} ==> !Holds(after.sets, id))
  {
    hide Owner, Next, Leaving, Holds, NoWorks;
    OnlyShrinks(w, PassOver(NameOf(id), inputs), id);
    if Holds(w.sets, id) {
      UntroubledPass(w, id, inputs);
    } else {
      NothingHeld(w, id);
    }
  }

  /** The agents have let go of everything of the set that was being deleted in `before`. */
  ghost predicate AllReleased(before: World, after: World, id: SetId) {
    forall k | k in OwnedOf(before.store, id) && before.store[k].terminating :: k !in after.store
  }

  lemma ReleasedKind(a: World, b: World, id: SetId, kind: Kind)
    requires OwnedOf(b.store, id) <= OwnedOf(a.store, id) && NoLive(a.store, id, kind) && AllReleased(a, b, id)
    ensures forall k | k in b.store && k.kind == kind :: Owner(b.store[k].labels) != Some(id)
    ensures forall k | k in OwnedOf(b.store, id) :: k.kind != kind
  {
    hide Owner;
    assert forall k :: k in OwnedOf(b.store, id) ==> k in b.store;
    assert forall k :: k in OwnedOf(a.store, id) ==> k in LiveOf(a.store, id) || k !in b.store;
    assert forall k :: k in b.store && Owner(b.store[k].labels) == Some(id) ==> k in OwnedOf(b.store, id);
  }

  /** Three untroubled passes complete a deletion, whatever happens in between, once the agents let go of what each
      pass deleted. */
  lemma ThreePassesComplete(w: World, id: SetId, first: Inputs, between: seq<Event>, second: Inputs, after: seq<Event>,
                            third: Inputs)
    requires WorldOk(w) && Leaving(w, id) && first.faults == {} && second.faults == {} && third.faults == {}
    requires var a := Next(w, PassOver(NameOf(id), first));
             AllowedRun(a, between) && AllReleased(a, WorldAfter(a, between), id)
    requires var b := Next(WorldAfter(Next(w, PassOver(NameOf(id), first)), between), PassOver(NameOf(id), second));
             AllowedRun(b, after) && AllReleased(b, WorldAfter(b, after), id)
    ensures var b := Next(WorldAfter(Next(w, PassOver(NameOf(id), first)), between), PassOver(NameOf(id), second));
            var c := Next(WorldAfter(b, after), PassOver(NameOf(id), third));
            OwnedOf(c.store, id) == {} && !Holds(c.sets, id)
  {
    hide Owner, Next, Leaving, Holds, WorldOk, AllowedRun, WorldAfter;
    var a := Next(w, PassOver(NameOf(id), first));
    PassShrinks(w, id, first);
    var a' := WorldAfter(a, between);
    RunShrinks(a, between, id);
    ReleasedKind(a, a', id, WorkKind);
    assert NoWorks(a'.store, id);
    var b := Next(a', PassOver(NameOf(id), second));
    PassShrinks(a', id, second);
    var b' := WorldAfter(b, after);
    RunShrinks(b, after, id);
    ReleasedKind(b, b', id, WorkKind);
    ReleasedKind(b, b', id, AccountKind);
    assert forall k :: k in OwnedOf(b'.store, id) ==> k.kind == WorkKind || k.kind == AccountKind;
    PassShrinks(b', id, third);
  }
}
